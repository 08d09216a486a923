/**
 * What the collecting loop of scan_host sees and builds. The worker pool's
 * completions arrive as a sequence in completion order; each either yields
 * the probe's record or raises when its result is fetched.
 */
module Aggregation {
  import opened Probing

  /** One finished future: the port it was submitted for, and what fetching its result gave. */
  datatype Completion =
    | Completed(port: int, outcome: ProbeOutcome, stamp: Timestamp)
    | Lost(port: int, message: string)

  /** The ports of a sequence of completions, in completion order. */
  function PortsOf(cs: seq<Completion>): (ps: seq<int>)
    ensures |ps| == |cs|
    ensures forall i :: 0 <= i < |cs| ==> ps[i] == cs[i].port
  {
    if cs == [] then [] else [cs[0].port] + PortsOf(cs[1..])
  }

  /** The ports of a sequence of records, in order. */
  function RecordPorts(rs: seq<ProbeResult>): seq<int>
  {
    seq(|rs|, i requires 0 <= i < |rs| => rs[i].port)
  }

  /** The record one completion yields: the probe's classification, or none when the fetch raised. */
  function Yield(c: Completion): (rs: seq<ProbeResult>)
    ensures |rs| == if c.Completed? then 1 else 0
  {
    match c
    case Completed(port, outcome, stamp) => [ScanPort(port, outcome, stamp)]
    case Lost(_, _) => []
  }

  /** The records the completions yield, in completion order. */
  function Collected(cs: seq<Completion>): (rs: seq<ProbeResult>)
    ensures |rs| <= |cs|
  {
    if cs == [] then [] else Collected(cs[..|cs| - 1]) + Yield(cs[|cs| - 1])
  }

  /** The records of `rs` whose status is `st`, in their order in `rs`. */
  function WithStatus(rs: seq<ProbeResult>, st: Status): (bucket: seq<ProbeResult>)
    ensures |bucket| <= |rs|
  {
    if rs == [] then []
    else (if rs[0].status == st then [rs[0]] else []) + WithStatus(rs[1..], st)
  }

  /** A bucket holds exactly the records of its status. */
  lemma {:induction false} WithStatusMembers(rs: seq<ProbeResult>, st: Status)
    ensures forall r :: r in WithStatus(rs, st) <==> r in rs && r.status == st
  {
    if rs != [] {
      WithStatusMembers(rs[1..], st);
      assert rs == [rs[0]] + rs[1..];
    }
  }

  /** `sub` can be obtained from `s` by deleting elements, so it keeps the order of `s`. */
  predicate Subsequence<T(==)>(sub: seq<T>, s: seq<T>)
    decreases |s|
  {
    if sub == [] then true
    else if s == [] then false
    else (sub[0] == s[0] && Subsequence(sub[1..], s[1..])) || Subsequence(sub, s[1..])
  }

  /** Every future in `cs` yielded a record. */
  predicate AllCompleted(cs: seq<Completion>)
  {
    forall i :: 0 <= i < |cs| ==> cs[i].Completed?
  }

  /** One more completion appends its record, if it yielded one, at the end. */
  lemma CollectedStep(cs: seq<Completion>, c: Completion)
    ensures Collected(cs + [c]) == Collected(cs) + Yield(c)
  {
    assert (cs + [c])[..|cs|] == cs;
  }

  /** Collecting a later batch of completions appends to what was collected before. */
  lemma {:induction false} CollectedAppend(a: seq<Completion>, b: seq<Completion>)
    ensures Collected(a + b) == Collected(a) + Collected(b)
  {
    if b == [] {
      assert a + b == a;
    } else {
      var b', x := b[..|b| - 1], b[|b| - 1];
      assert b == b' + [x];
      assert a + b == (a + b') + [x];
      CollectedStep(a + b', x);
      CollectedStep(b', x);
      CollectedAppend(a, b');
    }
  }

  /** A record arriving later lands later in its bucket: filtering distributes over concatenation. */
  lemma {:induction false} WithStatusAppend(a: seq<ProbeResult>, b: seq<ProbeResult>, st: Status)
    ensures WithStatus(a + b, st) == WithStatus(a, st) + WithStatus(b, st)
  {
    if a == [] {
      assert a + b == b;
    } else {
      var head := if a[0].status == st then [a[0]] else [];
      calc {
        WithStatus(a + b, st);
        { assert (a + b)[0] == a[0]; }
        head + WithStatus((a + b)[1..], st);
        { assert (a + b)[1..] == a[1..] + b; }
        head + WithStatus(a[1..] + b, st);
        { WithStatusAppend(a[1..], b, st); }
        head + (WithStatus(a[1..], st) + WithStatus(b, st));
        (head + WithStatus(a[1..], st)) + WithStatus(b, st);
        WithStatus(a, st) + WithStatus(b, st);
      }
    }
  }

  /** One more record lands at the end of the bucket of its status and no other. */
  lemma WithStatusStep(rs: seq<ProbeResult>, x: ProbeResult, st: Status)
    ensures WithStatus(rs + [x], st) == WithStatus(rs, st) + (if x.status == st then [x] else [])
  {
    WithStatusAppend(rs, [x], st);
    assert [x][1..] == [];
  }

  /** The three buckets together are as long as the sequence they split. */
  lemma {:induction false} BucketSizes(rs: seq<ProbeResult>)
    ensures |WithStatus(rs, Open)| + |WithStatus(rs, Closed)| + |WithStatus(rs, Error)| == |rs|
  {
    if rs != [] {
      BucketSizes(rs[1..]);
    }
  }

  /** Each bucket is the completion-order subsequence of the records that have its status. */
  lemma {:induction false} BucketKeepsOrder(rs: seq<ProbeResult>, st: Status)
    ensures Subsequence(WithStatus(rs, st), rs)
  {
    if rs != [] {
      BucketKeepsOrder(rs[1..], st);
      var rest := WithStatus(rs[1..], st);
      if rs[0].status == st {
        assert WithStatus(rs, st) == [rs[0]] + rest;
        assert ([rs[0]] + rest)[1..] == rest;
      } else {
        assert WithStatus(rs, st) == rest;
        SubsequenceDrop(rest, rs);
      }
    }
  }

  /** Any subsequence of the tail is a subsequence of the whole. */
  lemma SubsequenceDrop<T>(sub: seq<T>, s: seq<T>)
    requires s != [] && Subsequence(sub, s[1..])
    ensures Subsequence(sub, s)
  {
  }

  /** When every future yields, one record is collected per completion, and for the completion's port. */
  lemma {:induction false} CollectedAllCompleted(cs: seq<Completion>)
    requires AllCompleted(cs)
    ensures |Collected(cs)| == |cs|
    ensures forall i :: 0 <= i < |cs| ==> Collected(cs)[i] == ScanPort(cs[i].port, cs[i].outcome, cs[i].stamp)
  {
    if cs != [] {
      var init := cs[..|cs| - 1];
      CollectedAllCompleted(init);
      assert Collected(cs) == Collected(init) + Yield(cs[|cs| - 1]);
    }
  }

  /**
   * When every future yields and the completions are the submitted ports in
   * some order, there is one record per submitted port, duplicates included.
   */
  lemma RecordsMatchPorts(cs: seq<Completion>, ports: seq<int>)
    requires AllCompleted(cs) && multiset(PortsOf(cs)) == multiset(ports)
    ensures |Collected(cs)| == |ports|
    ensures multiset(RecordPorts(Collected(cs))) == multiset(ports)
  {
    CollectedAllCompleted(cs);
    assert RecordPorts(Collected(cs)) == PortsOf(cs);
    calc {
      |ports|;
      |multiset(ports)|;
      |multiset(PortsOf(cs))|;
      |PortsOf(cs)|;
    }
  }
}
