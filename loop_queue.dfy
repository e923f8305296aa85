/**
 * The looping clip queue served to viewers: each pull takes the clip at the
 * head, appends it back at the tail and plays it; an empty queue answers
 * "no content". The ring is specified by `Rotate` on sequences, and the
 * class `ClipQueue` is the shared list the producer appends to and the
 * request handler rotates.
 */
module LoopQueue {
  import opened Wrappers

  const OK: int := 200
  const NO_CONTENT: int := 204

  /** One pull: the head moves to the tail. */
  function Rotate<T>(q: seq<T>): (r: seq<T>)
    ensures |r| == |q|
  {
    if q == [] then [] else q[1..] + [q[0]]
  }

  /** A pull neither loses nor duplicates a clip. */
  lemma RotateKeepsClips<T>(q: seq<T>)
    ensures multiset(Rotate(q)) == multiset(q)
  {
    if q != [] {
      assert q == [q[0]] + q[1..];
    }
  }

  /** The queue after `n` pulls with no appends in between. */
  function RotateN<T>(q: seq<T>, n: nat): (r: seq<T>)
    ensures |r| == |q|
  {
    if n == 0 then q else Rotate(RotateN(q, n - 1))
  }

  /** The clips the first `n` pulls serve, in order. */
  function Served<T>(q: seq<T>, n: nat): seq<T> {
    if n == 0 || q == [] then [] else Served(q, n - 1) + [RotateN(q, n - 1)[0]]
  }

  /** `c` copies of `q`, one after the other. */
  function Repeat<T>(q: seq<T>, c: nat): seq<T> {
    if c == 0 then [] else Repeat(q, c - 1) + q
  }

  /** The head position after `k` pulls on a ring of `m` clips, counted one pull at a time. */
  function Pos(k: nat, m: nat): (p: nat)
    requires m > 0
    ensures p < m
  {
    if k == 0 then 0 else if Pos(k - 1, m) + 1 == m then 0 else Pos(k - 1, m) + 1
  }

  /** Counting pulls around the ring is taking the remainder. */
  lemma {:induction false} PosIsMod(k: nat, m: nat)
    requires m > 0
    ensures Pos(k, m) == k % m
  {
    if k > 0 {
      PosIsMod(k - 1, m);
      var t, r := (k - 1) / m, (k - 1) % m;
      assert k - 1 == t * m + r;
      if r + 1 == m {
        assert k == (t + 1) * m + 0;
        ModUnique(k, m, t + 1, 0);
      } else {
        ModUnique(k, m, t, r + 1);
      }
    }
  }

  /** After `n` pulls the queue is the original one shifted left by `Pos(n, |q|)` places. */
  lemma {:induction false} RotateNShifts<T>(q: seq<T>, n: nat)
    requires q != []
    ensures RotateN(q, n) == q[Pos(n, |q|)..] + q[..Pos(n, |q|)]
  {
    if n > 0 {
      RotateNShifts(q, n - 1);
      ShiftStep(q, Pos(n - 1, |q|));
    }
  }

  /** One pull on the queue shifted left by `j` places shifts it by one more place, wrapping at the end. */
  lemma ShiftStep<T>(q: seq<T>, j: nat)
    requires j < |q|
    ensures Rotate(q[j..] + q[..j]) == if j + 1 < |q| then q[j + 1..] + q[..j + 1] else q[0..] + q[..0]
  {
    var p := q[j..] + q[..j];
    assert p[0] == q[j];
    assert p[1..] == q[j + 1..] + q[..j];
    assert q[..j + 1] == q[..j] + [q[j]];
    if j + 1 == |q| {
      assert q[j + 1..] == [] && q[..j + 1] == q;
      assert q[0..] == q && q[..0] == [];
    }
  }

  /** Euclidean division has one remainder: the `r` of any `n == q * m + r` with `0 <= r < m`. */
  lemma ModUnique(n: int, m: int, q: int, r: int)
    requires m > 0 && 0 <= r < m && n == q * m + r
    ensures n % m == r
  {
    var q0, r0 := n / m, n % m;
    assert n == q0 * m + r0;
    if q0 < q {
      assert (q - q0) * m == r0 - r;
      MulAtLeast(q - q0, m);
    } else if q0 > q {
      assert (q0 - q) * m == r - r0;
      MulAtLeast(q0 - q, m);
    }
  }

  lemma MulAtLeast(a: int, m: int)
    requires a >= 1 && m > 0
    ensures a * m >= m
  {
    assert a * m == m + (a - 1) * m;
  }

  /** The `k`-th pull (counting from 0) serves `q[k mod |q|]`, and nothing is lost along the way. */
  lemma KthPullServes<T>(q: seq<T>, k: nat)
    requires q != []
    ensures |RotateN(q, k)| == |q| && RotateN(q, k)[0] == q[k % |q|]
  {
    RotateNShifts(q, k);
    PosIsMod(k, |q|);
  }

  /** A full cycle of `|q|` pulls gives back the original queue. */
  lemma FullCycleRestores<T>(q: seq<T>)
    ensures RotateN(q, |q|) == q
  {
    if q != [] {
      RotateNShifts(q, |q|);
      PosIsMod(|q|, |q|);
      ModUnique(|q|, |q|, 1, 0);
      assert q[0..] + q[..0] == q;
    }
  }

  /** The `n` pulls serve `n` clips; the `k`-th of them is `q[k mod |q|]`. */
  lemma {:induction false} ServedInRoundRobin<T>(q: seq<T>, n: nat)
    requires q != []
    ensures |Served(q, n)| == n
    ensures forall k :: 0 <= k < n ==> Served(q, n)[k] == q[k % |q|]
  {
    if n > 0 {
      ServedInRoundRobin(q, n - 1);
      KthPullServes(q, n - 1);
      var prev := Served(q, n - 1);
      assert Served(q, n) == prev + [q[(n - 1) % |q|]];
      forall k | 0 <= k < n
        ensures Served(q, n)[k] == q[k % |q|]
      {
        if k < n - 1 {
          assert Served(q, n)[k] == prev[k];
        }
      }
    }
  }

  lemma {:induction false} RepeatAt<T>(q: seq<T>, c: nat)
    requires q != []
    ensures |Repeat(q, c)| == c * |q|
    ensures forall k :: 0 <= k < c * |q| ==> Repeat(q, c)[k] == q[k % |q|]
  {
    if c > 0 {
      RepeatAt(q, c - 1);
      var m := |q|;
      forall k | (c - 1) * m <= k < c * m
        ensures Repeat(q, c)[k] == q[k % m]
      {
        assert k == (c - 1) * m + (k - (c - 1) * m);
        ModOfMultiplePlus(c - 1, k - (c - 1) * m, m);
      }
    }
  }

  lemma ModOfMultiplePlus(t: nat, r: nat, m: nat)
    requires r < m
    ensures (t * m + r) % m == r
  {
    ModUnique(t * m + r, m, t, r);
  }

  /**
   * Every `c` full cycles serve each clip of the queue exactly `c` times, in
   * the queue's own order: the served sequence is `c` copies of the queue.
   */
  lemma CyclesServeEachClipEqually<T>(q: seq<T>, c: nat)
    ensures Served(q, c * |q|) == Repeat(q, c)
  {
    if q == [] {
      if c > 0 {
        RepeatEmpty(q, c);
      }
    } else {
      ServedInRoundRobin(q, c * |q|);
      RepeatAt(q, c);
    }
  }

  lemma {:induction false} RepeatEmpty<T>(q: seq<T>, c: nat)
    requires q == []
    ensures Repeat(q, c) == []
  {
    if c > 0 {
      RepeatEmpty(q, c - 1);
    }
  }

  // ---------------------------------------------------------------------
  // The producer and the request handler sharing the queue

  /** One atomic access to the shared queue: an append by the producer or a pull by the handler. */
  datatype Access<T> = Append(clip: T) | Pull

  /** The queue after a run of accesses, each taken as one atomic step. */
  function Run<T>(q: seq<T>, ops: seq<Access<T>>): seq<T> {
    if ops == [] then q
    else
      var before := Run(q, ops[..|ops| - 1]);
      match ops[|ops| - 1]
      case Append(c) => before + [c]
      case Pull => Rotate(before)
  }

  /**
   * A pull is two list operations, `pop(0)` then `append(head)`, and the
   * producer may append between them. That interleaving leaves the queue as
   * the atomic append followed by the atomic pull would.
   */
  lemma AppendInsidePullIsAtomic<T>(q: seq<T>, x: T)
    requires q != []
    ensures q[1..] + [x] + [q[0]] == Rotate(q + [x])
  {
    assert (q + [x])[1..] == q[1..] + [x];
  }

  /** The clips appended during a run, in order. */
  function Appended<T>(ops: seq<Access<T>>): seq<T> {
    if ops == [] then []
    else Appended(ops[..|ops| - 1]) + (match ops[|ops| - 1] case Append(c) => [c] case Pull => [])
  }

  /**
   * However appends and pulls interleave, no clip is lost or duplicated: the
   * queue holds exactly its original clips plus the appended ones.
   */
  lemma {:induction false} InterleavingLosesNothing<T>(q: seq<T>, ops: seq<Access<T>>)
    ensures |Run(q, ops)| == |q| + |Appended(ops)|
    ensures multiset(Run(q, ops)) == multiset(q) + multiset(Appended(ops))
  {
    if ops != [] {
      InterleavingLosesNothing(q, ops[..|ops| - 1]);
      RotateKeepsClips(Run(q, ops[..|ops| - 1]));
    }
  }

  /** The shared list of clip paths. */
  class ClipQueue {
    var clips: seq<string>

    constructor ()
      ensures clips == []
    {
      clips := [];
    }

    /** `looping_tts_clips.append(path)`. */
    method Append(path: string)
      modifies this
      ensures clips == old(clips) + [path]
    {
      clips := clips + [path];
    }

    /**
     * The request handler's queue step: on a non-empty queue, pop the head,
     * append it back and answer 200 with it; on an empty queue answer 204
     * and change nothing.
     */
    method Pull() returns (status: int, clip: Option<string>)
      modifies this
      ensures clips == Rotate(old(clips))
      ensures old(clips) == [] ==> status == NO_CONTENT && clip == None && clips == old(clips)
      ensures old(clips) != [] ==>
        (status == OK && clip == Some(old(clips)[0]) && clips == old(clips)[1..] + [old(clips)[0]])
    {
      if clips != [] {
        var head := clips[0];
        clips := clips[1..];
        clips := clips + [head];
        status, clip := OK, Some(head);
      } else {
        status, clip := NO_CONTENT, None;
      }
    }
  }

  /**
   * The server handling `n` requests in a row with no append in between:
   * the responses are the clips in round-robin order, or "no content" each
   * time when the queue is empty.
   */
  method ServeRequests(queue: ClipQueue, n: nat) returns (responses: seq<Option<string>>)
    modifies queue
    ensures queue.clips == RotateN(old(queue.clips), n)
    ensures |responses| == n
    ensures old(queue.clips) == [] ==> forall k :: 0 <= k < n ==> responses[k] == None
    ensures old(queue.clips) != [] ==>
      forall k :: 0 <= k < n ==> responses[k] == Some(old(queue.clips)[k % |old(queue.clips)|])
  {
    ghost var q := queue.clips;
    responses := [];
    for i := 0 to n
      invariant queue.clips == RotateN(q, i)
      invariant |responses| == i
      invariant q == [] ==> forall k :: 0 <= k < i ==> responses[k] == None
      invariant q != [] ==> forall k :: 0 <= k < i ==> responses[k] == Some(q[k % |q|])
    {
      ghost var before := responses;
      var status, clip := queue.Pull();
      if q != [] {
        KthPullServes(q, i);
        assert clip == Some(q[i % |q|]);
      }
      responses := responses + [clip];
      assert forall k :: 0 <= k < i ==> responses[k] == before[k];
    }
  }
}
