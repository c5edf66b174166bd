/** net.straylightlabs.hola.sd.Query: one DNS-SD browse over multicast DNS. The query
    asks its initial question, collects the records of every response that answers a
    question asked so far, asks for the records each PTR and SRV record still needs
    (the browse chain of sections 4 and 12 of RFC 6763: PTR, then SRV and TXT, then
    A and AAAA), and builds an instance for each PTR that answers the initial
    question. The multicast socket is modelled as the log of what was sent and a
    sequence of receive results. */
module MdnsQuery {
  import opened Wrappers

  /** The question types and class this code asks with. */
  datatype QType = PTR | SRV | TXT | A | AAAA
  datatype QClass = IN

  datatype Question = Question(name: string, qtype: QType, qclass: QClass)

  /** The resource records a response carries, with the fields this code reads. */
  datatype Record =
    | PtrRecord(name: string, ptrName: string)
    | SrvRecord(name: string, target: string)
    | TxtRecord(name: string)
    | ARecord(name: string)
    | AaaaRecord(name: string)
    | OtherRecord(name: string)

  /** The two multicast groups, 224.0.0.251 and FF02::FB. */
  datatype Family = IPv4 | IPv6

  /** One datagram sent: a question asked on one group. */
  datatype Transmission = Transmission(question: Question, group: Family)

  /** What one socket.receive gives: a timeout, another IOException, a datagram
      Response.createFrom rejects, or a response together with whether it answers
      the questions asked so far. */
  datatype Received = TimedOut | ReadFailed | Malformed | Response(answersQuestions: bool, records: set<Record>)

  /** Instance.createFromRecords(ptr, records), represented by what it is built from. */
  datatype Instance = Instance(ptr: Record, records: set<Record>)

  predicate Distinct<T(==)>(s: seq<T>)
  {
    forall i, j :: 0 <= i < j < |s| ==> s[i] != s[j]
  }

  // ---------------------------------------------------------------- the dependencies

  predicate HasSrv(records: set<Record>, name: string)
  {
    exists r :: r in records && r.SrvRecord? && r.name == name
  }

  predicate HasTxt(records: set<Record>, name: string)
  {
    exists r :: r in records && r.TxtRecord? && r.name == name
  }

  predicate HasAddress(records: set<Record>, name: string)
  {
    exists r :: r in records && (r.ARecord? || r.AaaaRecord?) && r.name == name
  }

  function Ptrs(records: set<Record>): set<Record>
  {
    set r | r in records && r.PtrRecord?
  }

  function Srvs(records: set<Record>): set<Record>
  {
    set r | r in records && r.SrvRecord?
  }

  /** The SRV question one PTR record still needs. */
  function SrvMissingFor(p: Record, records: set<Record>): set<Question>
    requires p.PtrRecord?
  {
    if HasSrv(records, p.ptrName) then {} else {Question(p.ptrName, SRV, IN)}
  }

  /** The TXT question one PTR record still needs. */
  function TxtMissingFor(p: Record, records: set<Record>): set<Question>
    requires p.PtrRecord?
  {
    if HasTxt(records, p.ptrName) then {} else {Question(p.ptrName, TXT, IN)}
  }

  /** The address questions one SRV record still needs. */
  function AddressMissingFor(s: Record, records: set<Record>): set<Question>
    requires s.SrvRecord?
  {
    if HasAddress(records, s.target) then {} else {Question(s.target, A, IN), Question(s.target, AAAA, IN)}
  }

  /** The SRV and TXT questions the PTR records among `ptrs` still need. */
  function SrvTxtMissing(ptrs: set<Record>, records: set<Record>): set<Question>
  {
    (set p | p in ptrs && p.PtrRecord? && !HasSrv(records, p.ptrName) :: Question(p.ptrName, SRV, IN)) +
    (set p | p in ptrs && p.PtrRecord? && !HasTxt(records, p.ptrName) :: Question(p.ptrName, TXT, IN))
  }

  /** The A and AAAA questions the SRV records among `srvs` still need. */
  function AddressMissing(srvs: set<Record>, records: set<Record>): set<Question>
  {
    (set s | s in srvs && s.SrvRecord? && !HasAddress(records, s.target) :: Question(s.target, A, IN)) +
    (set s | s in srvs && s.SrvRecord? && !HasAddress(records, s.target) :: Question(s.target, AAAA, IN))
  }

  /** Every question fetchMissingRecords asks for a record set. */
  function MissingQuestions(records: set<Record>): set<Question>
  {
    SrvTxtMissing(Ptrs(records), records) + AddressMissing(Srvs(records), records)
  }

  lemma SrvTxtMissingAdd(done: set<Record>, p: Record, records: set<Record>)
    requires p.PtrRecord?
    ensures SrvTxtMissing(done + {p}, records) == SrvTxtMissing(done, records) + SrvMissingFor(p, records) + TxtMissingFor(p, records)
  {
  }

  lemma AddressMissingAdd(done: set<Record>, s: Record, records: set<Record>)
    requires s.SrvRecord?
    ensures AddressMissing(done + {s}, records) == AddressMissing(done, records) + AddressMissingFor(s, records)
  {
  }

  /** Once the missing questions are asked, every PTR has an SRV and a TXT record or
      the question for it, and every SRV has an address record or both address
      questions. */
  lemma MissingCovers(records: set<Record>, questions: set<Question>)
    requires MissingQuestions(records) <= questions
    ensures forall p :: p in records && p.PtrRecord? ==>
      (HasSrv(records, p.ptrName) || Question(p.ptrName, SRV, IN) in questions) &&
      (HasTxt(records, p.ptrName) || Question(p.ptrName, TXT, IN) in questions)
    ensures forall s :: s in records && s.SrvRecord? ==>
      HasAddress(records, s.target) ||
      (Question(s.target, A, IN) in questions && Question(s.target, AAAA, IN) in questions)
  {
    forall p | p in records && p.PtrRecord?
      ensures HasSrv(records, p.ptrName) || Question(p.ptrName, SRV, IN) in questions
      ensures HasTxt(records, p.ptrName) || Question(p.ptrName, TXT, IN) in questions
    {
      if !HasSrv(records, p.ptrName) {
        assert Question(p.ptrName, SRV, IN) in SrvTxtMissing(Ptrs(records), records);
      }
      if !HasTxt(records, p.ptrName) {
        assert Question(p.ptrName, TXT, IN) in SrvTxtMissing(Ptrs(records), records);
      }
    }
    forall s | s in records && s.SrvRecord? && !HasAddress(records, s.target)
      ensures Question(s.target, A, IN) in questions && Question(s.target, AAAA, IN) in questions
    {
      assert Question(s.target, A, IN) in AddressMissing(Srvs(records), records);
      assert Question(s.target, AAAA, IN) in AddressMissing(Srvs(records), records);
    }
  }

  /** A record set whose every dependency is present needs no question. */
  lemma NothingMissing(records: set<Record>)
    requires forall p :: p in records && p.PtrRecord? ==> HasSrv(records, p.ptrName) && HasTxt(records, p.ptrName)
    requires forall s :: s in records && s.SrvRecord? ==> HasAddress(records, s.target)
    ensures MissingQuestions(records) == {}
  {
  }

  /** A question is accounted for when it is the initial one or names the target of a
      PTR or SRV record. */
  predicate Explained(q: Question, records: set<Record>, initial: Question)
  {
    q == initial || exists r :: r in records && ((r.PtrRecord? && r.ptrName == q.name) || (r.SrvRecord? && r.target == q.name))
  }

  lemma MissingExplained(records: set<Record>, initial: Question)
    ensures forall q :: q in MissingQuestions(records) ==> Explained(q, records, initial)
  {
    forall q | q in MissingQuestions(records)
      ensures Explained(q, records, initial)
    {
      if q in SrvTxtMissing(Ptrs(records), records) {
        var p :| p in records && p.PtrRecord? && p.ptrName == q.name;
      } else {
        var s :| s in records && s.SrvRecord? && s.target == q.name;
      }
    }
  }

  // ---------------------------------------------------------------- the send log

  /** What ask sends for a new question: once on each group the socket joined. */
  function SendsOf(q: Question, v4: bool, v6: bool): (ts: seq<Transmission>)
    ensures |ts| == (if v4 then 1 else 0) + (if v6 then 1 else 0)
  {
    (if v4 then [Transmission(q, IPv4)] else []) + (if v6 then [Transmission(q, IPv6)] else [])
  }

  /** Once on each joined group, nothing else. */
  lemma SendsOfMembers(q: Question, v4: bool, v6: bool)
    ensures forall t :: t in SendsOf(q, v4, v6) <==> t.question == q && ((t.group == IPv4 && v4) || (t.group == IPv6 && v6))
    ensures Distinct(SendsOf(q, v4, v6))
  {
  }

  /** Appending the sends of a question none of the logged datagrams carries keeps the
      log free of repeats. */
  lemma AppendDistinct(log: seq<Transmission>, more: seq<Transmission>, q: Question)
    requires Distinct(log) && Distinct(more)
    requires forall t :: t in more ==> t.question == q
    requires forall t :: t in log ==> t.question != q
    ensures Distinct(log + more)
  {
    forall i, j | 0 <= i < j < |log + more| ensures (log + more)[i] != (log + more)[j]
    {
      if i < |log| && j >= |log| {
        assert log[i] in log && more[j - |log|] in more;
      }
    }
  }

  lemma PrefixTrans<T>(a: seq<T>, b: seq<T>, c: seq<T>)
    requires a <= b && b <= c
    ensures a <= c
  {
  }

  /** A log without repeats that only grew, and holds nothing it did not hold
      before, did not grow. */
  lemma NoGrowth<T>(a: seq<T>, b: seq<T>)
    requires a <= b && Distinct(b)
    requires forall t :: t in b ==> t in a
    ensures a == b
  {
    if |b| > |a| {
      FirstAddedIsNew(a, b);
      assert false;
    }
  }

  lemma FirstAddedIsNew<T>(a: seq<T>, b: seq<T>)
    requires a <= b && |a| < |b| && Distinct(b)
    ensures b[|a|] in b && b[|a|] !in a
  {
    forall k | 0 <= k < |a| ensures a[k] != b[|a|]
    {
      assert a[k] == b[k];
    }
  }

  lemma {:induction false} DistinctCard<T>(s: seq<T>)
    requires Distinct(s)
    ensures |set x | x in s| == |s|
  {
    if s != [] {
      var init := s[..|s| - 1];
      DistinctCard(init);
      assert (set x | x in s) == (set x | x in init) + {s[|s| - 1]};
      assert s[|s| - 1] !in init;
    }
  }

  /** The datagrams of the questions `qs` on one group. */
  function OnGroup(qs: set<Question>, g: Family): set<Transmission>
  {
    set q | q in qs :: Transmission(q, g)
  }

  lemma {:induction false} OnGroupCard(qs: set<Question>, g: Family)
    ensures |OnGroup(qs, g)| == |qs|
    decreases |qs|
  {
    if qs != {} {
      var q :| q in qs;
      OnGroupCard(qs - {q}, g);
      assert OnGroup(qs, g) == OnGroup(qs - {q}, g) + {Transmission(q, g)};
    }
  }

  /** A log that holds each of the questions `qs` once on each joined group, and
      nothing else, has one datagram per question and joined group: with
      deduplication at most two per asked question. */
  lemma SentCount(sent: seq<Transmission>, qs: set<Question>, v4: bool, v6: bool)
    requires Distinct(sent)
    requires forall t :: t in sent <==> t.question in qs && ((t.group == IPv4 && v4) || (t.group == IPv6 && v6))
    ensures |sent| == (if v4 then |qs| else 0) + (if v6 then |qs| else 0)
    ensures |sent| <= 2 * |qs|
  {
    DistinctCard(sent);
    OnGroupCard(qs, IPv4);
    OnGroupCard(qs, IPv6);
    var on4: set<Transmission> := if v4 then OnGroup(qs, IPv4) else {};
    var on6: set<Transmission> := if v6 then OnGroup(qs, IPv6) else {};
    SentSet(sent, qs, v4, v6, on4, on6);
  }

  lemma SentSet(sent: seq<Transmission>, qs: set<Question>, v4: bool, v6: bool,
                on4: set<Transmission>, on6: set<Transmission>)
    requires forall t :: t in sent <==> t.question in qs && ((t.group == IPv4 && v4) || (t.group == IPv6 && v6))
    requires on4 == if v4 then OnGroup(qs, IPv4) else {}
    requires on6 == if v6 then OnGroup(qs, IPv6) else {}
    ensures (set x | x in sent) == on4 + on6 && on4 !! on6
  {
    forall t ensures t in sent <==> t in on4 + on6
    {
      if t in sent {
        assert t == Transmission(t.question, t.group);
      }
    }
  }

  /** The counts of the fetch helpers: no record of the kind carries the name exactly
      when the count is 0. */
  lemma SrvCountZero(records: set<Record>, name: string)
    ensures |set r | r in records && r.SrvRecord? && r.name == name| == 0 <==> !HasSrv(records, name)
  {
    var named := set r | r in records && r.SrvRecord? && r.name == name;
    if HasSrv(records, name) {
      var r :| r in records && r.SrvRecord? && r.name == name;
      assert r in named;
    } else {
      assert forall r :: r !in named;
    }
  }

  lemma TxtCountZero(records: set<Record>, name: string)
    ensures |set r | r in records && r.TxtRecord? && r.name == name| == 0 <==> !HasTxt(records, name)
  {
    var named := set r | r in records && r.TxtRecord? && r.name == name;
    if HasTxt(records, name) {
      var r :| r in records && r.TxtRecord? && r.name == name;
      assert r in named;
    } else {
      assert forall r :: r !in named;
    }
  }

  lemma AddressCountZero(records: set<Record>, name: string)
    ensures |set r | r in records && (r.ARecord? || r.AaaaRecord?) && r.name == name| == 0 <==> !HasAddress(records, name)
  {
    var named := set r | r in records && (r.ARecord? || r.AaaaRecord?) && r.name == name;
    if HasAddress(records, name) {
      var r :| r in records && (r.ARecord? || r.AaaaRecord?) && r.name == name;
      assert r in named;
    } else {
      assert forall r :: r !in named;
    }
  }

  // ---------------------------------------------------------------- the listen loop

  /** The records a received datagram contributes: those of a response that answers
      the asked questions, and nothing otherwise. */
  function RecordsIn(ev: Received): set<Record>
  {
    if ev.Response? && ev.answersQuestions then ev.records else {}
  }

  /** The records the datagrams `evs` contribute, in the order received. */
  function RecordsOf(evs: seq<Received>): set<Record>
  {
    if evs == [] then {} else RecordsOf(evs[..|evs| - 1]) + RecordsIn(evs[|evs| - 1])
  }

  /** Every record of RecordsOf comes from a relevant response, and every relevant
      response's records are there. */
  lemma {:induction false} RecordsOfMembers(evs: seq<Received>)
    ensures forall r :: r in RecordsOf(evs) <==>
      exists k :: 0 <= k < |evs| && evs[k].Response? && evs[k].answersQuestions && r in evs[k].records
  {
    if evs != [] {
      var init := evs[..|evs| - 1];
      RecordsOfMembers(init);
      forall r ensures r in RecordsOf(evs) <==>
        exists k :: 0 <= k < |evs| && evs[k].Response? && evs[k].answersQuestions && r in evs[k].records
      {
        if r in RecordsOf(init) {
          var k :| 0 <= k < |init| && init[k].Response? && init[k].answersQuestions && r in init[k].records;
          assert evs[k] == init[k];
        }
        if exists k :: 0 <= k < |evs| && evs[k].Response? && evs[k].answersQuestions && r in evs[k].records {
          var k :| 0 <= k < |evs| && evs[k].Response? && evs[k].answersQuestions && r in evs[k].records;
          if k < |init| {
            assert init[k] == evs[k];
          }
        }
      }
    }
  }

  /** The listen loop stops after `n` datagrams: none of the first n - 1 was a
      timeout, and either the n-th was one or the datagrams ran out. */
  predicate ExitsAt(evs: seq<Received>, n: nat)
  {
    && n <= |evs|
    && (forall k :: 0 <= k < n - 1 ==> !evs[k].TimedOut?)
    && (n == |evs| || (n > 0 && evs[n - 1].TimedOut?))
  }

  /** How many datagrams the listen loop consumes: up to and including the first
      timeout, or all of them. */
  function ListenLength(evs: seq<Received>): (n: nat)
    ensures ExitsAt(evs, n)
  {
    if evs == [] then 0
    else if evs[0].TimedOut? then 1
    else
      var rest := ListenLength(evs[1..]);
      assert forall k :: 1 <= k < rest ==> evs[k] == evs[1..][k - 1];
      1 + rest
  }

  /** Only one length has the exit condition. */
  lemma ExitsAtUnique(evs: seq<Received>, n: nat, m: nat)
    requires ExitsAt(evs, n) && ExitsAt(evs, m)
    ensures n == m
  {
  }

  // ---------------------------------------------------------------- the instances

  /** What buildInstancesFromRecords adds: an instance for each PTR record the initial
      question is answered by, built from that PTR and all the records. */
  function InstancesOf(ptrs: set<Record>, records: set<Record>): set<Instance>
  {
    set p | p in ptrs :: Instance(p, records)
  }

  /** The PTR records among `records` that answer the initial question. */
  function AnsweringPtrs(records: set<Record>, answeredBy: Record -> bool): set<Record>
  {
    set p | p in records && p.PtrRecord? && answeredBy(p)
  }

  /** An instance is built exactly for each answering PTR, one per PTR. */
  lemma InstancesOfAnswers(records: set<Record>, answeredBy: Record -> bool)
    ensures forall i :: i in InstancesOf(AnsweringPtrs(records, answeredBy), records) <==>
      i.ptr in records && i.ptr.PtrRecord? && answeredBy(i.ptr) && i.records == records
    ensures |InstancesOf(AnsweringPtrs(records, answeredBy), records)| == |AnsweringPtrs(records, answeredBy)|
  {
    var ptrs := AnsweringPtrs(records, answeredBy);
    InstancesCount(ptrs, records);
  }

  /** Helper: an instance is built from its PTR, so the count of instances is the count of PTRs. */
  lemma {:induction false} InstancesCount(ptrs: set<Record>, records: set<Record>)
    ensures |InstancesOf(ptrs, records)| == |ptrs|
    decreases |ptrs|
  {
    if ptrs != {} {
      var p :| p in ptrs;
      InstancesCount(ptrs - {p}, records);
      assert InstancesOf(ptrs, records) == InstancesOf(ptrs - {p}, records) + {Instance(p, records)};
    }
  }

  /** Explained only needs records, so more records keep every question explained. */
  lemma ExplainedGrows(qs: set<Question>, r1: set<Record>, r2: set<Record>, initial: Question)
    requires r1 <= r2
    requires forall q :: q in qs ==> Explained(q, r1, initial)
    ensures forall q :: q in qs ==> Explained(q, r2, initial)
  {
    forall q | q in qs ensures Explained(q, r2, initial)
    {
      if q != initial {
        var r :| r in r1 && ((r.PtrRecord? && r.ptrName == q.name) || (r.SrvRecord? && r.target == q.name));
        assert r in r2;
      }
    }
  }

  // ---------------------------------------------------------------- the query

  class Query {
    const initialQuestion: Question
    var questions: set<Question>
    var records: set<Record>
    var instances: set<Instance>
    var isUsingIPv4: bool
    var isUsingIPv6: bool
    /** The datagrams sent, in order. */
    var sent: seq<Transmission>

    /** A datagram goes out on a multicast group exactly when the socket joined it. */
    predicate Joined(g: Family)
      reads this`isUsingIPv4, this`isUsingIPv6
    {
      (g == IPv4 && isUsingIPv4) || (g == IPv6 && isUsingIPv6)
    }

    /** The send log holds each asked question once on each joined group, and
        nothing else. */
    ghost predicate SentValid()
      reads this`sent, this`questions, this`isUsingIPv4, this`isUsingIPv6
    {
      Distinct(sent) && forall t :: t in sent <==> t.question in questions && Joined(t.group)
    }

    /** The log's length: one datagram per asked question and joined group. */
    lemma SentBound()
      requires SentValid()
      ensures |sent| == |questions| * JoinedCount() && |sent| <= 2 * |questions|
    {
      SentCount(sent, questions, isUsingIPv4, isUsingIPv6);
    }

    /** How many groups the socket joined. */
    function JoinedCount(): (n: nat)
      reads this`isUsingIPv4, this`isUsingIPv6
      ensures n <= 2 && (n == 0 <==> !isUsingIPv4 && !isUsingIPv6)
    {
      (if isUsingIPv4 then 1 else 0) + (if isUsingIPv6 then 1 else 0)
    }

    /** The state between received datagrams: the send log is consistent, every asked
        question is accounted for by the records, and nothing is missing unasked. */
    ghost predicate Valid()
      reads this`sent, this`questions, this`isUsingIPv4, this`isUsingIPv6, this`records
    {
      && SentValid()
      && (forall q :: q in questions ==> Explained(q, records, initialQuestion))
      && MissingQuestions(records) <= questions
    }

    /** new Query(service, domain, timeout) followed by runOnce's setup, with the
        question for service and domain given. */
    constructor(initial: Question)
      ensures initialQuestion == initial && questions == {} && records == {} && instances == {}
      ensures !isUsingIPv4 && !isUsingIPv6 && sent == []
      ensures Valid()
    {
      initialQuestion := initial;
      questions, records, instances := {}, {}, {};
      isUsingIPv4, isUsingIPv6 := false, false;
      sent := [];
    }

    /** openSocket, given whether joining each multicast group succeeded: a joined
        group is used, and joining neither is an IOException. */
    method OpenSocket(joinedIPv4: bool, joinedIPv6: bool) returns (failed: bool)
      modifies this`isUsingIPv4, this`isUsingIPv6
      ensures isUsingIPv4 == (old(isUsingIPv4) || joinedIPv4)
      ensures isUsingIPv6 == (old(isUsingIPv6) || joinedIPv6)
      ensures failed <==> !isUsingIPv4 && !isUsingIPv6
    {
      if joinedIPv4 {
        isUsingIPv4 := true;
      }
      if joinedIPv6 {
        isUsingIPv6 := true;
      }
      failed := !isUsingIPv4 && !isUsingIPv6;
    }

    /** ask(question): a question already asked is not asked again; a new one joins
        the asked set and is sent once on each joined group. */
    method Ask(q: Question)
      requires SentValid()
      modifies this`questions, this`sent
      ensures SentValid()
      ensures q in old(questions) ==> questions == old(questions) && sent == old(sent)
      ensures q !in old(questions) ==> questions == old(questions) + {q}
      ensures q !in old(questions) ==> sent == old(sent) + SendsOf(q, isUsingIPv4, isUsingIPv6)
    {
      if q in questions {
        return;
      }
      ghost var before := sent;
      questions := questions + {q};
      if isUsingIPv4 {
        sent := sent + [Transmission(q, IPv4)];
      }
      if isUsingIPv6 {
        sent := sent + [Transmission(q, IPv6)];
      }
      assert sent == before + SendsOf(q, isUsingIPv4, isUsingIPv6);
      SendsOfMembers(q, isUsingIPv4, isUsingIPv6);
      AppendDistinct(before, SendsOf(q, isUsingIPv4, isUsingIPv6), q);
    }

    /** fetchMissingSrvRecordsFor and querySrvRecordFor: the SRV question for the
        PTR's target when no SRV record has that name. */
    method FetchMissingSrvRecordsFor(ptr: Record)
      requires ptr.PtrRecord? && SentValid()
      modifies this`questions, this`sent
      ensures SentValid() && old(sent) <= sent
      ensures questions == old(questions) + SrvMissingFor(ptr, records)
    {
      var numRecords := |set r | r in records && r.SrvRecord? && r.name == ptr.ptrName|;
      SrvCountZero(records, ptr.ptrName);
      if numRecords == 0 {
        Ask(Question(ptr.ptrName, SRV, IN));
      }
    }

    /** fetchMissingTxtRecordsFor and queryTxtRecordFor: the TXT question for the
        PTR's target when no TXT record has that name. */
    method FetchMissingTxtRecordsFor(ptr: Record)
      requires ptr.PtrRecord? && SentValid()
      modifies this`questions, this`sent
      ensures SentValid() && old(sent) <= sent
      ensures questions == old(questions) + TxtMissingFor(ptr, records)
    {
      var numRecords := |set r | r in records && r.TxtRecord? && r.name == ptr.ptrName|;
      TxtCountZero(records, ptr.ptrName);
      if numRecords == 0 {
        Ask(Question(ptr.ptrName, TXT, IN));
      }
    }

    /** fetchMissingAddressRecordsFor and queryAddressesFor: the A and then the AAAA
        question for the SRV's target when no A or AAAA record has that name. */
    method FetchMissingAddressRecordsFor(srv: Record)
      requires srv.SrvRecord? && SentValid()
      modifies this`questions, this`sent
      ensures SentValid() && old(sent) <= sent
      ensures questions == old(questions) + AddressMissingFor(srv, records)
    {
      var numRecords := |set r | r in records && (r.ARecord? || r.AaaaRecord?) && r.name == srv.target|;
      AddressCountZero(records, srv.target);
      if numRecords == 0 {
        ghost var s0 := sent;
        Ask(Question(srv.target, A, IN));
        ghost var s1 := sent;
        Ask(Question(srv.target, AAAA, IN));
        PrefixTrans(s0, s1, sent);
      }
    }

    /** The first loop of fetchMissingRecords: the SRV and TXT questions of every PTR
        record. */
    method FetchForPtrs()
      requires SentValid()
      modifies this`questions, this`sent
      ensures SentValid() && old(sent) <= sent
      ensures questions == old(questions) + SrvTxtMissing(Ptrs(records), records)
    {
      var ptrs := Ptrs(records);
      var todo := ptrs;
      while todo != {}
        invariant todo <= ptrs
        invariant questions == old(questions) + SrvTxtMissing(ptrs - todo, records)
        invariant SentValid() && old(sent) <= sent
        decreases |todo|
      {
        var ptr :| ptr in todo;
        ghost var s0 := sent;
        FetchMissingSrvRecordsFor(ptr);
        ghost var s1 := sent;
        FetchMissingTxtRecordsFor(ptr);
        PrefixTrans(s0, s1, sent);
        PrefixTrans(old(sent), s0, sent);
        SrvTxtMissingAdd(ptrs - todo, ptr, records);
        assert ptrs - (todo - {ptr}) == (ptrs - todo) + {ptr};
        todo := todo - {ptr};
      }
    }

    /** The second loop of fetchMissingRecords: the address questions of every SRV
        record. */
    method FetchForSrvs()
      requires SentValid()
      modifies this`questions, this`sent
      ensures SentValid() && old(sent) <= sent
      ensures questions == old(questions) + AddressMissing(Srvs(records), records)
    {
      var srvs := Srvs(records);
      var todo := srvs;
      while todo != {}
        invariant todo <= srvs
        invariant questions == old(questions) + AddressMissing(srvs - todo, records)
        invariant SentValid() && old(sent) <= sent
        decreases |todo|
      {
        var srv :| srv in todo;
        ghost var s0 := sent;
        FetchMissingAddressRecordsFor(srv);
        PrefixTrans(old(sent), s0, sent);
        AddressMissingAdd(srvs - todo, srv, records);
        assert srvs - (todo - {srv}) == (srvs - todo) + {srv};
        todo := todo - {srv};
      }
    }

    /** fetchMissingRecords: for each PTR record its SRV and TXT questions, then for
        each SRV record its address questions, each asked at most once. The records
        do not change, and the log only grows. */
    method FetchMissingRecords()
      requires SentValid()
      modifies this`questions, this`sent
      ensures SentValid() && old(sent) <= sent
      ensures questions == old(questions) + MissingQuestions(records)
      ensures questions == old(questions) ==> sent == old(sent)
    {
      FetchForPtrs();
      ghost var s1 := sent;
      FetchForSrvs();
      PrefixTrans(old(sent), s1, sent);
      if questions == old(questions) {
        NoGrowth(old(sent), sent);
      }
    }

    /** The body of the listen loop for one datagram that arrived: a datagram
        Response.createFrom rejects, or a response that answers none of the asked
        questions, is dropped; a relevant response's records are added and the
        missing records are asked for. */
    method HandleDatagram(ev: Received)
      requires Valid() && !ev.TimedOut?
      modifies this`records, this`questions, this`sent
      ensures Valid() && old(sent) <= sent
      ensures records == old(records) + RecordsIn(ev)
      ensures RecordsIn(ev) <= old(records) ==> questions == old(questions) && sent == old(sent)
      ensures questions == old(questions) + MissingQuestions(records)
    {
      match ev
      case ReadFailed =>
      case Malformed =>
      case Response(answers, recs) =>
        if answers {
          ghost var before := records;
          ExplainedGrows(questions, records, records + recs, initialQuestion);
          records := records + recs;
          FetchMissingRecords();
          MissingExplained(records, initialQuestion);
          if recs <= before {
            assert records == before;
          }
        }
    }

    /** collectResponses' loop, with the datagrams it receives given in order: the
        loop ends at the first timeout, and otherwise when the datagrams run out
        (the browsing time has passed). It returns how many it consumed. */
    method CollectResponses(events: seq<Received>) returns (consumed: nat)
      requires Valid()
      modifies this`records, this`questions, this`sent
      ensures consumed == ListenLength(events)
      ensures Valid() && old(sent) <= sent
      ensures records == old(records) + RecordsOf(events[..consumed])
    {
      var timeouts := 0;
      var i := 0;
      while timeouts == 0 && i < |events|
        invariant 0 <= i <= |events|
        invariant Valid() && old(sent) <= sent
        invariant records == old(records) + RecordsOf(events[..i])
        invariant forall k :: 0 <= k < i - 1 ==> !events[k].TimedOut?
        invariant timeouts == 0 ==> forall k :: 0 <= k < i ==> !events[k].TimedOut?
        invariant timeouts != 0 ==> i > 0 && events[i - 1].TimedOut?
        decreases |events| - i
      {
        var ev := events[i];
        assert events[..i + 1][..i] == events[..i];
        if ev.TimedOut? {
          timeouts := timeouts + 1;
        } else {
          ghost var s0 := sent;
          HandleDatagram(ev);
          PrefixTrans(old(sent), s0, sent);
        }
        i := i + 1;
      }
      consumed := i;
      ExitsAtUnique(events, consumed, ListenLength(events));
    }

    /** buildInstancesFromRecords, with initialQuestion.answeredBy given: one
        instance for each answering PTR record, added to the instances. */
    method BuildInstances(answeredBy: Record -> bool)
      modifies this`instances
      ensures instances == old(instances) + InstancesOf(AnsweringPtrs(records, answeredBy), records)
    {
      var ptrs := AnsweringPtrs(records, answeredBy);
      var todo := ptrs;
      while todo != {}
        invariant todo <= ptrs
        invariant instances == old(instances) + InstancesOf(ptrs - todo, records)
        decreases |todo|
      {
        var ptr :| ptr in todo;
        instances := instances + {Instance(ptr, records)};
        assert ptrs - (todo - {ptr}) == (ptrs - todo) + {ptr};
        todo := todo - {ptr};
      }
    }

    /** runOnce's ask(initialQuestion) on a query that has asked nothing yet. */
    method AskInitial()
      requires questions == {} && records == {} && sent == []
      modifies this`questions, this`sent
      ensures questions == {initialQuestion} && sent == SendsOf(initialQuestion, isUsingIPv4, isUsingIPv6)
      ensures Valid()
    {
      Ask(initialQuestion);
      NothingMissing({});
    }

    /** runOnce on a new Query, with the socket's join results, the datagrams the
        listener receives and initialQuestion.answeredBy given. Joining no group is
        an IOException before anything is sent; otherwise the initial question is
        sent first, the responses are collected until the first timeout, and the
        instances are those of the answering PTR records. */
    method RunOnce(joinedIPv4: bool, joinedIPv6: bool, events: seq<Received>, answeredBy: Record -> bool)
      returns (r: Result<set<Instance>>)
      requires questions == {} && records == {} && sent == [] && !isUsingIPv4 && !isUsingIPv6
      modifies this`instances, this`isUsingIPv4, this`isUsingIPv6, this`questions, this`records, this`sent
      ensures !joinedIPv4 && !joinedIPv6 ==> r == Err(IOError) && sent == [] && questions == {}
      ensures joinedIPv4 || joinedIPv6 ==>
        && r == Ok(instances)
        && instances == InstancesOf(AnsweringPtrs(records, answeredBy), records)
        && records == RecordsOf(events[..ListenLength(events)])
        && initialQuestion in questions
        && SendsOf(initialQuestion, joinedIPv4, joinedIPv6) <= sent
        && Valid()
    {
      instances := {};
      var failed := OpenSocket(joinedIPv4, joinedIPv6);
      if failed {
        return Err(IOError);
      }
      AskInitial();
      var _ := CollectResponses(events);
      BuildInstances(answeredBy);
      r := Ok(instances);
    }
  }
}
