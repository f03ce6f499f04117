/**
 * The coordinator's pure arithmetic (index.js): how many workers to use and
 * how the configuration indices are cut into one contiguous chunk per worker.
 */
module Partition {

  function Min(a: int, b: int): int { if a <= b then a else b }

  function Max(a: int, b: int): int { if a >= b then a else b }

  lemma MulMono(a: int, b: int, c: nat)
    requires a <= b
    ensures a * c <= b * c
  {
  }

  lemma MulSucc(i: int, c: int)
    ensures (i + 1) * c == i * c + c
  {
  }

  lemma MulComm(a: int, b: int)
    ensures a * b == b * a
  {
  }

  /** Euclidean division of a position by a positive block size. */
  lemma DivMod(j: nat, size: nat)
    requires size > 0
    ensures j == (j / size) * size + j % size && 0 <= j % size < size
  {
  }

  lemma MulNonneg(a: nat, b: nat)
    ensures a * b >= 0
  {
  }

  /** `a == q * d + r` with `0 <= r < d` pins down the quotient and remainder. */
  lemma DivUnique(a: int, d: int, q: int, r: int)
    requires 0 < d && 0 <= r < d && a == q * d + r
    ensures a / d == q && a % d == r
  {
    var q', r' := a / d, a % d;
    assert a == q' * d + r';
    if q' < q {
      MulMono(q' + 1, q, d);
      MulSucc(q', d);
    } else if q' > q {
      MulMono(q + 1, q', d);
      MulSucc(q, d);
    }
  }

  /**
   * `Math.ceil(total / n)` for a positive worker count: the least chunk size
   * with which `n` chunks hold `total` items.
   */
  function CeilDiv(total: nat, n: nat): (q: nat)
    requires n > 0
    ensures q * n >= total
    ensures q > 0 ==> (q - 1) * n < total
  {
    var q := (total + n - 1) / n;
    assert total + n - 1 == q * n + (total + n - 1) % n;
    MulSucc(q - 1, n);
    q
  }

  /** Where chunk `i` starts: `i * size`. */
  function Start(i: nat, size: nat): nat
  {
    MulNonneg(i, size);
    i * size
  }

  /**
   * `arr.slice(start, end)` for non-negative bounds: both bounds are clamped
   * to the length, and an empty range gives the empty list.
   */
  function Slice<T>(arr: seq<T>, start: nat, end: nat): (r: seq<T>)
    ensures |r| == if start < end && start < |arr| then Min(end, |arr|) - start else 0
    ensures forall k :: 0 <= k < |r| ==> r[k] == arr[start + k]
  {
    var from := Min(start, |arr|);
    var to := Min(end, |arr|);
    if from < to then arr[from..to] else []
  }

  /**
   * `chunkIntoN(arr, n)` (index.js:112-117): `n` chunks of `ceil(|arr| / n)`
   * items each, cut in order, the last ones shorter or empty. A count of
   * zero or less asks `Array.from` for no elements at all.
   */
  function ChunkIntoN<T>(arr: seq<T>, n: int): (chunks: seq<seq<T>>)
    ensures n <= 0 ==> chunks == []
    ensures n > 0 ==> |chunks| == n
    ensures n > 0 ==> forall i :: 0 <= i < n ==>
      |chunks[i]| <= CeilDiv(|arr|, n) &&
      (chunks[i] != [] ==> i * CeilDiv(|arr|, n) + |chunks[i]| <= |arr|)
    ensures n > 0 ==> forall i, k {:trigger chunks[i][k]} ::
      0 <= i < n && 0 <= k < |chunks[i]| ==> chunks[i][k] == arr[i * CeilDiv(|arr|, n) + k]
  {
    if n <= 0 then []
    else
      var size := CeilDiv(|arr|, n);
      seq(n, i requires 0 <= i < n => Slice(arr, Start(i, size), Start(i, size) + size))
  }

  /** The in-order concatenation of a list of chunks. */
  function Flatten<T>(chunks: seq<seq<T>>): seq<T>
  {
    if chunks == [] then [] else Flatten(chunks[..|chunks| - 1]) + chunks[|chunks| - 1]
  }

  /** The exact extent of chunk `i`: it starts at `i * size` and stops at `(i + 1) * size` or at the end. */
  lemma ChunkExtent<T>(arr: seq<T>, n: int, i: nat)
    requires 0 < n && i < n
    ensures var size := CeilDiv(|arr|, n);
      ChunkIntoN(arr, n)[i] ==
        if i * size < |arr| then arr[i * size .. Min(i * size + size, |arr|)] else []
  {
    var size := CeilDiv(|arr|, n);
    var c := ChunkIntoN(arr, n)[i];
    assert c == Slice(arr, i * size, i * size + size);
    if i * size < |arr| {
      assert c == arr[i * size .. Min(i * size + size, |arr|)];
    }
  }

  /** The first `k` chunks concatenate to the first `k * size` items (or all of them). */
  lemma {:induction false} FlattenPrefix<T>(arr: seq<T>, n: int, k: nat)
    requires 0 < n && k <= n
    ensures var size := CeilDiv(|arr|, n);
      Flatten(ChunkIntoN(arr, n)[..k]) == arr[..Min(k * size, |arr|)]
  {
    var size := CeilDiv(|arr|, n);
    var chunks := ChunkIntoN(arr, n);
    if k == 0 {
      assert chunks[..0] == [];
    } else {
      var j := k - 1;
      FlattenPrefix(arr, n, j);
      assert chunks[..k][..j] == chunks[..j];
      assert Flatten(chunks[..k]) == Flatten(chunks[..j]) + chunks[j];
      ChunkExtent(arr, n, j);
      MulSucc(j, size);
      if j * size >= |arr| {
        assert Min(j * size, |arr|) == |arr| == Min(k * size, |arr|);
      } else {
        assert arr[..j * size] + arr[j * size .. Min(k * size, |arr|)] == arr[..Min(k * size, |arr|)];
      }
    }
  }

  /**
   * Partition exactness: with at least one worker the chunks, concatenated
   * in order, give back the input, so no item is lost or duplicated.
   */
  lemma ChunksConcatenate<T>(arr: seq<T>, n: int)
    requires n > 0
    ensures Flatten(ChunkIntoN(arr, n)) == arr
  {
    var chunks := ChunkIntoN(arr, n);
    FlattenPrefix(arr, n, n);
    assert chunks[..n] == chunks;
    MulComm(n, CeilDiv(|arr|, n));
  }

  /** A position below `n * size` lies in one of the first `n` blocks of `size`. */
  lemma QuotientBelow(j: nat, size: nat, n: nat)
    requires size > 0 && j < size * n
    ensures j / size < n
  {
    if j / size >= n {
      MulMono(n, j / size, size);
    }
  }

  /** Item `j` sits in chunk `j / size` at offset `j % size`. */
  lemma ChunkOfItem<T>(arr: seq<T>, n: int, j: nat)
    requires n > 0 && j < |arr|
    ensures var size := CeilDiv(|arr|, n);
      size > 0 && j / size < n &&
      j % size < |ChunkIntoN(arr, n)[j / size]| &&
      ChunkIntoN(arr, n)[j / size][j % size] == arr[j]
  {
    var size := CeilDiv(|arr|, n);
    QuotientBelow(j, size, n);
    DivMod(j, size);
    var q, r := j / size, j % size;
    ChunkExtent(arr, n, q);
    var start := q * size;
    var chunk := ChunkIntoN(arr, n)[q];
    assert chunk == arr[start .. Min(start + size, |arr|)];
    assert chunk[r] == arr[start + r];
  }

  /** Once a chunk comes out empty, every later chunk is empty too. */
  lemma EmptyChunksTrail<T>(arr: seq<T>, n: int, i: nat, j: nat)
    requires 0 < n && i < j < n
    requires ChunkIntoN(arr, n)[i] == []
    ensures ChunkIntoN(arr, n)[j] == []
  {
    var size := CeilDiv(|arr|, n);
    ChunkExtent(arr, n, i);
    ChunkExtent(arr, n, j);
    MulMono(i, j, size);
  }

  /** A chunk that is followed by a non-empty one is full. */
  lemma EarlierChunksAreFull<T>(arr: seq<T>, n: int, i: nat, j: nat)
    requires 0 < n && i < j < n
    requires ChunkIntoN(arr, n)[j] != []
    ensures |ChunkIntoN(arr, n)[i]| == CeilDiv(|arr|, n)
  {
    var size := CeilDiv(|arr|, n);
    ChunkExtent(arr, n, i);
    ChunkExtent(arr, n, j);
    MulMono(i + 1, j, size);
    MulSucc(i, size);
  }

  /** Five items over four workers: sizes two, two, one and zero. */
  lemma FiveOverFour()
    ensures ChunkIntoN([0, 1, 2, 3, 4], 4) == [[0, 1], [2, 3], [4], []]
  {
    var arr := [0, 1, 2, 3, 4];
    var chunks := ChunkIntoN(arr, 4);
    assert CeilDiv(5, 4) == 2;
    ChunkExtent(arr, 4, 0);
    ChunkExtent(arr, 4, 1);
    ChunkExtent(arr, 4, 2);
    ChunkExtent(arr, 4, 3);
    assert chunks[0] == [0, 1] && chunks[1] == [2, 3] && chunks[2] == [4] && chunks[3] == [];
  }

  /** `configs.map((_, index) => index)` (index.js:16): the positions of the configurations. */
  function ConfigsIds<T>(configs: seq<T>): (ids: seq<nat>)
    ensures |ids| == |configs|
    ensures forall i :: 0 <= i < |ids| ==> ids[i] == i
  {
    seq(|configs|, i requires 0 <= i < |configs| => i)
  }

  /**
   * Every configuration index belongs to exactly one chunk: index `j` is in
   * chunk `c` exactly when `j` is a valid position and `j / size == c`.
   */
  lemma IdsPartition<T>(configs: seq<T>, n: int, c: nat, j: int)
    requires 0 < n && c < n
    ensures var size := CeilDiv(|configs|, n);
      j in ChunkIntoN(ConfigsIds(configs), n)[c] <==> 0 <= j < |configs| && j / size == c
  {
    var ids := ConfigsIds(configs);
    var size := CeilDiv(|configs|, n);
    var chunk := ChunkIntoN(ids, n)[c];
    if j in chunk {
      var k :| 0 <= k < |chunk| && chunk[k] == j;
      assert chunk[k] == ids[c * size + k];
      DivUnique(j, size, c, k);
    }
    if 0 <= j < |configs| && j / size == c {
      ChunkOfItem(ids, n, j);
      assert chunk[j % size] == j;
    }
  }

  /**
   * `calculateAvailableCPUs(cpus)` (index.js:56-62): a zero (falsy) request
   * means every system CPU, any other request is capped at the system count.
   */
  function CalculateAvailableCpus(cpus: int, systemCpus: nat): (r: int)
    ensures r <= systemCpus
    ensures cpus == 0 ==> r == systemCpus
    ensures cpus != 0 ==> r <= cpus && (r == cpus || r == systemCpus)
  {
    if cpus != 0 then (if cpus > systemCpus then systemCpus else cpus) else systemCpus
  }

  /**
   * `calculateCPUs(configsCount, availableCpus)` (index.js:64-70): never more
   * workers than configurations, nor than available CPUs.
   */
  function CalculateCpus(configsCount: nat, availableCpus: int): (r: int)
    ensures r <= configsCount && r <= availableCpus
    ensures r == configsCount || r == availableCpus
  {
    if availableCpus >= configsCount then configsCount else availableCpus
  }

  /**
   * The worker count the constructor settles on (index.js:17-20): bounded by
   * the system CPUs and by the configurations, at least one when all three
   * inputs are, and a negative request passes through unchanged.
   */
  lemma ParallelismBounds(cpus: int, systemCpus: nat, configsCount: nat)
    ensures var w := CalculateCpus(configsCount, CalculateAvailableCpus(cpus, systemCpus));
      && w <= systemCpus && w <= configsCount
      && (cpus >= 1 && systemCpus >= 1 && configsCount >= 1 ==> w >= 1)
      && (cpus == 0 ==> w == Min(systemCpus, configsCount))
      && (cpus > 0 ==> w == Min(cpus, Min(systemCpus, configsCount)))
      && (cpus < 0 ==> w == cpus)
  {
  }

  /** Five configurations on two CPUs: chunks `[0, 1, 2]` and `[3, 4]`. */
  lemma FiveConfigsOnTwoCpus<T>(configs: seq<T>, systemCpus: nat)
    requires |configs| == 5 && systemCpus >= 2
    ensures var w := CalculateCpus(|configs|, CalculateAvailableCpus(2, systemCpus));
      w == 2 && ChunkIntoN(ConfigsIds(configs), w) == [[0, 1, 2], [3, 4]]
  {
    var ids := ConfigsIds(configs);
    assert ids == [0, 1, 2, 3, 4];
    var chunks := ChunkIntoN(ids, 2);
    assert CeilDiv(5, 2) == 3;
    ChunkExtent(ids, 2, 0);
    ChunkExtent(ids, 2, 1);
    assert chunks[0] == [0, 1, 2] && chunks[1] == [3, 4];
  }
}
