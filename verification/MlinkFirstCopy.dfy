/**
  A poll's data, from the frames that wait: which numbers it sees, on which paths each came, and
  that what is delivered under a number is the first copy on the first path that has one.
 */
module MlinkFirstCopy {
  import opened Wrappers
  import opened Bytes
  import opened MlinkHeader
  import opened MlinkDedupe
  import opened MlinkPath
  import opened MlinkSteps
  import opened MlinkNetwork
  import opened MlinkSafety
  import opened MlinkReads

  predicate IsDataOf(pkt: Packet, n: int) {
    !pkt.IsControlPlane() && pkt.seqNo == n
  }

  /** The first data packet with this number. */
  function FirstData(packets: seq<Packet>, n: int): Option<Packet> {
    if packets == [] then None
    else
      var before, last := FirstData(packets[..|packets| - 1], n), packets[|packets| - 1];
      if before.Some? then before else if IsDataOf(last, n) then Some(last) else None
  }

  function FirstOf(heard: seq<Copy>, n: int): Option<Copy> {
    if heard == [] then None
    else
      var before, last := FirstOf(heard[..|heard| - 1], n), heard[|heard| - 1];
      if before.Some? then before else if IsDataOf(last.pkt, n) then Some(last) else None
  }

  // ---------- The copies come path by path ----------

  ghost predicate InPathOrder(heard: seq<Copy>) {
    forall a, b :: 0 <= a < b < |heard| ==> heard[a].path <= heard[b].path
  }

  ghost predicate ArrivalsInOrder(incoming: seq<Arrival>) {
    forall a, b :: 0 <= a < b < |incoming| ==> incoming[a].path <= incoming[b].path
  }

  lemma {:induction false} IncomingInOrder(paths: seq<PathValue>)
    ensures ArrivalsInOrder(Incoming(paths))
  {
    if paths != [] {
      IncomingInOrder(paths[..|paths| - 1]);
      IncomingFits(paths[..|paths| - 1]);
    }
  }

  lemma {:induction false} AcceptedInOrder(c: Config, incoming: seq<Arrival>)
    requires ArrivalsInOrder(incoming)
    ensures InPathOrder(Accepted(c, incoming))
    ensures forall k :: 0 <= k < |Accepted(c, incoming)| ==> incoming != [] && Accepted(c, incoming)[k].path <= incoming[|incoming| - 1].path
  {
    if incoming != [] {
      hide Decode, Accepted;
      var init := incoming[..|incoming| - 1];
      AcceptedTurn(c, incoming);
      AcceptedInOrder(c, init);
    } else {
      assert Accepted(c, []) == [];
    }
  }

  /** The first copy heard is on the first path that has one, and is the first there. */
  lemma {:induction false} FirstIsOnFirstPath(heard: seq<Copy>, n: int)
    requires InPathOrder(heard)
    ensures FirstOf(heard, n) == None ==> forall i: nat :: FirstData(PathPackets(heard, i), n) == None
    ensures FirstOf(heard, n).Some? ==>
              var copy := FirstOf(heard, n).value;
              && copy in heard && FirstData(PathPackets(heard, copy.path), n) == Some(copy.pkt)
              && forall i: nat :: i < copy.path ==> FirstData(PathPackets(heard, i), n) == None
  {
    if heard != [] {
      var init, last := heard[..|heard| - 1], heard[|heard| - 1];
      FirstIsOnFirstPath(init, n);
      forall i: nat ensures PathPackets(heard, i) == PathPackets(init, i) + (if last.path == i then [last.pkt] else [])
        ensures FirstData(PathPackets(heard, i), n)
             == if FirstData(PathPackets(init, i), n).Some? then FirstData(PathPackets(init, i), n)
                else if last.path == i && IsDataOf(last.pkt, n) then Some(last.pkt) else None
      {
        OneMoreData(PathPackets(init, i), last.pkt, n);
        assert PathPackets(init, i) + [] == PathPackets(init, i);
      }
    }
  }

  lemma OneMoreData(packets: seq<Packet>, pkt: Packet, n: int)
    ensures FirstData(packets + [pkt], n)
         == if FirstData(packets, n).Some? then FirstData(packets, n) else if IsDataOf(pkt, n) then Some(pkt) else None
  {
    assert (packets + [pkt])[..|packets|] == packets;
  }

  // ---------- The groups ----------

  /** A group holds the data copies of its number, the first of them first. */
  lemma {:induction false} GroupStarts(heard: seq<Copy>, n: int)
    ensures var group := CopiesOf(DataCopies(heard), n);
            (group == [] <==> FirstOf(heard, n) == None) && (group != [] ==> FirstOf(heard, n) == Some(group[0]))
  {
    if heard != [] {
      hide DataCopies, CopiesOf;
      GroupStarts(heard[..|heard| - 1], n);
      DataTurn(heard);
      GroupTurn(heard[..|heard| - 1], heard[|heard| - 1], n);
    } else {
      NoGroups();
      assert DataCopies([]) == [];
    }
  }

  predicate HasPath(group: seq<Copy>, i: nat) {
    exists k :: 0 <= k < |group| && group[k].path == i
  }

  lemma OneMorePath(group: seq<Copy>, copy: Copy, i: nat)
    ensures HasPath(group + [copy], i) <==> HasPath(group, i) || copy.path == i
  {
    var more := group + [copy];
    if HasPath(group, i) {
      var k :| 0 <= k < |group| && group[k].path == i;
      assert more[k].path == i;
    }
    if copy.path == i {
      assert more[|group|].path == i;
    }
  }

  /** And it shows on which paths one came. */
  lemma {:induction false} GroupPaths(heard: seq<Copy>, n: int, i: nat)
    ensures HasPath(CopiesOf(DataCopies(heard), n), i) <==> FirstData(PathPackets(heard, i), n).Some?
  {
    if heard != [] {
      hide DataCopies, CopiesOf, HasPath;
      var init, last := heard[..|heard| - 1], heard[|heard| - 1];
      GroupPaths(init, n, i);
      DataTurn(heard);
      GroupTurn(init, last, n);
      OneMoreData(PathPackets(init, i), last.pkt, n);
      assert PathPackets(init, i) + [] == PathPackets(init, i);
      var before := CopiesOf(DataCopies(init), n);
      OneMorePath(before, last, i);
      assert before + [] == before;
    } else {
      NoGroups();
      assert DataCopies([]) == [];
    }
  }

  lemma GroupIs(heard: seq<Copy>, n: int)
    ensures var group := CopiesOf(DataCopies(heard), n);
            && (group == [] <==> FirstOf(heard, n) == None)
            && (group != [] ==> FirstOf(heard, n) == Some(group[0]))
            && forall i: nat :: HasPath(group, i) <==> FirstData(PathPackets(heard, i), n).Some?
  {
    hide DataCopies, CopiesOf, HasPath, PathPackets, FirstData, FirstOf;
    GroupStarts(heard, n);
    forall i: nat ensures HasPath(CopiesOf(DataCopies(heard), n), i) <==> FirstData(PathPackets(heard, i), n).Some? {
      GroupPaths(heard, n, i);
    }
  }

  lemma DataTurn(heard: seq<Copy>)
    requires heard != []
    ensures DataCopies(heard) == DataCopies(heard[..|heard| - 1]) + if heard[|heard| - 1].pkt.IsControlPlane() then [] else [heard[|heard| - 1]]
  {
  }

  lemma GroupTurn(init: seq<Copy>, last: Copy, n: int)
    ensures var data := DataCopies(init) + if last.pkt.IsControlPlane() then [] else [last];
            CopiesOf(data, n) == CopiesOf(DataCopies(init), n) + if IsDataOf(last.pkt, n) then [last] else []
  {
    hide DataCopies;
    var before := DataCopies(init);
    if last.pkt.IsControlPlane() {
      assert before + [] == before;
    } else {
      GroupsTurn(before + [last]);
      assert (before + [last])[..|before|] == before;
    }
  }

  // ---------- Taking the groups ----------

  /** For each number, whether the path brought a copy. */
  function Brought(packets: seq<Packet>, numbers: seq<int>): seq<bool> {
    seq(|numbers|, k requires 0 <= k < |numbers| => FirstData(packets, numbers[k]).Some?)
  }

  predicate DistinctIds(paths: seq<PathValue>) {
    forall i, j :: 0 <= i < j < |paths| ==> paths[i].pathId != paths[j].pathId
  }

  lemma AccountOutcome(paths: seq<PathValue>, heard: seq<Copy>, n: int, i: nat)
    requires DistinctIds(paths) && i < |paths| && forall k :: 0 <= k < |heard| ==> heard[k].path < |paths|
    ensures forall k :: 0 <= k < |CopiesOf(DataCopies(heard), n)| ==> CopiesOf(DataCopies(heard), n)[k].path < |paths|
    ensures Account(paths, CopiesOf(DataCopies(heard), n))[i]
         == if paths[i].up then paths[i].ObserveDataOutcome(FirstData(PathPackets(heard, i), n).Some?) else paths[i]
  {
    hide DataCopies, CopiesOf, PathPackets, FirstData;
    GroupIs(heard, n);
    var group := CopiesOf(DataCopies(heard), n);
    forall k | 0 <= k < |group| ensures group[k].path < |paths| {
      assert group[k] in DataCopies(heard) && group[k] in heard;
    }
    var got := set k | 0 <= k < |group| :: paths[group[k].path].pathId;
    assert paths[i].pathId in got <==> HasPath(group, i);
  }

  /** What each group does: every up path learns whether it brought a copy. */
  lemma {:induction false} GroupsTell(s: SessionValue, heard: seq<Copy>, numbers: seq<int>, i: nat)
    requires DistinctIds(s.paths) && i < |s.paths| && forall k :: 0 <= k < |heard| ==> heard[k].path < |s.paths|
    requires CopiesFit(s, DataCopies(heard)) && forall n :: n in numbers ==> CopiesOf(DataCopies(heard), n) != []
    ensures var t := TakeGroups(s, DataCopies(heard), numbers).session;
            && |t.paths| == |s.paths| && (forall j :: 0 <= j < |s.paths| ==> t.paths[j] == s.paths[j].(dataOutcomes := t.paths[j].dataOutcomes))
            && t.paths[i].dataOutcomes == if s.paths[i].up && numbers != [] then
                 Last(s.paths[i].lossWindow, s.paths[i].dataOutcomes + Brought(PathPackets(heard, i), numbers)) else s.paths[i].dataOutcomes
  {
    hide DataCopies, CopiesOf, PathPackets, FirstData, TakeGroups, Account, Last;
    var data := DataCopies(heard);
    if numbers == [] {
      TakeGroupsNone(s, data);
    } else {
      var init, n, p := numbers[..|numbers| - 1], numbers[|numbers| - 1], s.paths[i];
      GroupsTell(s, heard, init, i);
      TakeGroupsTurn(s, data, numbers);
      var before := TakeGroups(s, data, init).session;
      forall j: nat | j < |s.paths|
        ensures Account(before.paths, CopiesOf(data, n))[j]
             == if before.paths[j].up then before.paths[j].ObserveDataOutcome(FirstData(PathPackets(heard, j), n).Some?) else before.paths[j]
      {
        AccountOutcome(before.paths, heard, n, j);
      }
      var packets := PathPackets(heard, i);
      var now := [FirstData(packets, n).Some?];
      assert Brought(packets, numbers) == Brought(packets, init) + now;
      LastOfLonger(p.lossWindow, p.dataOutcomes + Brought(packets, init), now);
      assert p.dataOutcomes + Brought(packets, init) + now == p.dataOutcomes + Brought(packets, numbers);
      if init == [] {
        assert p.dataOutcomes + Brought(packets, []) == p.dataOutcomes;
      }
    }
  }

  // ---------- A poll ----------

  /** The numbers a poll sees, each once. */
  function NumbersSeen(c: Config, s: SessionValue): seq<int> {
    FirstSeen(DataCopies(HeardBy(c, s)))
  }

  /** What waits on path i, as packets of the session. */
  function On(c: Config, s: SessionValue, i: nat): seq<Packet>
    requires i < |s.paths|
  {
    PacketsOf(c, s.paths[i].inbox)
  }

  /** A number is seen exactly when some inbox has a data packet with it. */
  lemma SeenIsWaiting(c: Config, s: SessionValue, n: int)
    ensures n in NumbersSeen(c, s) <==> exists i: nat :: i < |s.paths| && FirstData(On(c, s, i), n).Some?
  {
    hide DataCopies, CopiesOf, PathPackets, FirstData, PacketsOf, Accepted, Incoming, FirstSeen, HeardBy;
    var heard := HeardBy(c, s);
    GroupIs(heard, n);
    var group, data := CopiesOf(DataCopies(heard), n), DataCopies(heard);
    assert n in NumbersSeen(c, s) <==> group != [] by { SeenIsGroup(data, n); }
    if group != [] {
      assert group[0] in data && group[0] in heard;
      HeardIsInbox(c, s, group[0].path);
      assert HasPath(group, group[0].path);
      assert FirstData(On(c, s, group[0].path), n).Some?;
    }
    forall i: nat | i < |s.paths| && FirstData(On(c, s, i), n).Some? ensures group != [] {
      HeardIsInbox(c, s, i);
      assert HasPath(group, i);
    }
  }

  lemma SeenIsGroup(data: seq<Copy>, n: int)
    ensures n in FirstSeen(data) <==> CopiesOf(data, n) != []
  {
    hide FirstSeen, CopiesOf;
    if CopiesOf(data, n) != [] {
      var copy := CopiesOf(data, n)[0];
      assert copy in data && copy.pkt.seqNo == n;
    }
  }

  /** Data outcomes: a poll tells every path that is up, number by number, whether it brought a copy. */
  lemma PollTellsPaths(c: Config, s: SessionValue, nowUs: int, i: nat)
    requires PathIdsFit(s.paths) && DistinctIds(s.paths) && i < |s.paths|
    ensures var p, q, numbers := s.paths[i], Poll(c, s, nowUs).session.paths[i], NumbersSeen(c, s);
            q.dataOutcomes == if (p.up || On(c, s, i) != []) && numbers != [] then
                                Last(p.lossWindow, p.dataOutcomes + Brought(On(c, s, i), numbers)) else p.dataOutcomes
  {
    hide AbsorbAll, TakeGroups, HeardBy, PacketsOf, PathPackets, FirstData, DataCopies, FirstSeen, CopiesOf, Last, AbsorbPackets;
    var heard, drained := HeardBy(c, s), Drained(s.paths);
    var absorbed := AbsorbAll(c, drained, heard, nowUs);
    HeardIsInbox(c, s, i);
    AbsorbAllByPath(c, drained, heard, nowUs, i);
    PacketsOffTheWire(c, s.paths[i].inbox);
    AbsorbsAll(c, drained[i], On(c, s, i), nowUs);
    var t := s.(paths := absorbed);
    forall a, b | 0 <= a < b < |absorbed| ensures absorbed[a].pathId != absorbed[b].pathId {
      assert absorbed[a].pathId == drained[a].pathId && absorbed[b].pathId == drained[b].pathId;
    }
    forall k | 0 <= k < |DataCopies(heard)| ensures DataCopies(heard)[k].path < |t.paths| {
      assert DataCopies(heard)[k] in heard;
    }
    forall n | n in FirstSeen(DataCopies(heard)) ensures CopiesOf(DataCopies(heard), n) != [] {
      SeenIsGroup(DataCopies(heard), n);
    }
    GroupsTell(t, heard, FirstSeen(DataCopies(heard)), i);
  }

  /** A delivery is the first copy on the first path that has one of its number. */
  ghost predicate FromFirstPath(c: Config, s: SessionValue, d: Delivery) {
    exists j: nat :: j < |s.paths| && IsFirstOn(c, s, d, j)
  }

  ghost predicate IsFirstOn(c: Config, s: SessionValue, d: Delivery, j: nat)
    requires j < |s.paths|
  {
    && d.winner == s.paths[j].name && d.pathId == s.paths[j].pathId
    && FirstData(On(c, s, j), d.seqNo).Some?
    && d.payload == FirstData(On(c, s, j), d.seqNo).value.payload && d.trafficClass == FirstData(On(c, s, j), d.seqNo).value.trafficClass
    && forall i: nat :: i < j ==> FirstData(On(c, s, i), d.seqNo) == None
  }

  lemma FirstCopyOf(c: Config, s: SessionValue, n: int)
    requires CopiesOf(DataCopies(HeardBy(c, s)), n) != []
    ensures var copy := CopiesOf(DataCopies(HeardBy(c, s)), n)[0];
            && copy.path < |s.paths| && FirstData(On(c, s, copy.path), n) == Some(copy.pkt)
            && forall i: nat :: i < copy.path ==> FirstData(On(c, s, i), n) == None
  {
    hide DataCopies, CopiesOf, PathPackets, FirstData, PacketsOf, Accepted, Incoming, HeardBy, FirstOf;
    var heard := HeardBy(c, s);
    assert InPathOrder(heard) by { HeardInOrder(c, s); }
    GroupIs(heard, n);
    FirstIsOnFirstPath(heard, n);
    var copy := CopiesOf(DataCopies(heard), n)[0];
    forall i: nat | i <= copy.path ensures FirstData(On(c, s, i), n) == FirstData(PathPackets(heard, i), n) {
      HeardIsInbox(c, s, i);
    }
  }

  lemma HeardInOrder(c: Config, s: SessionValue)
    ensures InPathOrder(HeardBy(c, s))
  {
    hide Accepted, Incoming;
    IncomingInOrder(s.paths);
    AcceptedInOrder(c, Incoming(s.paths));
  }

  lemma {:induction false} GroupsDeliverFirst(c: Config, s: SessionValue, t: SessionValue, numbers: seq<int>)
    requires var data := DataCopies(HeardBy(c, s));
             && CopiesFit(t, data) && (forall n :: n in numbers ==> CopiesOf(data, n) != [])
    requires SamePaths(s.paths, t.paths)
    ensures var data := DataCopies(HeardBy(c, s));
            var ds := TakeGroups(t, data, numbers).delivered;
            (forall k :: 0 <= k < |ds| ==> ds[k].seqNo in numbers && FromFirstPath(c, s, ds[k]))
            && |ds| <= |numbers|
  {
    hide DataCopies, CopiesOf, TakeGroups, HeardBy, FromFirstPath, TakeGroup;
    var data := DataCopies(HeardBy(c, s));
    if numbers == [] {
      TakeGroupsNone(t, data);
    } else {
      var init, n := numbers[..|numbers| - 1], numbers[|numbers| - 1];
      GroupsDeliverFirst(c, s, t, init);
      TakeGroupsTurn(t, data, numbers);
      GroupsSamePaths(t, data, init);
      var before := TakeGroups(t, data, init).session;
      DeliveryIsFirst(c, s, before, n);
    }
  }

  lemma DeliveryIsFirst(c: Config, s: SessionValue, before: SessionValue, n: int)
    requires var copies := CopiesOf(DataCopies(HeardBy(c, s)), n); copies != [] && copies[0].path < |before.paths|
    requires |before.paths| == |s.paths| && forall i :: 0 <= i < |s.paths| ==> before.paths[i].pathId == s.paths[i].pathId && before.paths[i].name == s.paths[i].name
    ensures FromFirstPath(c, s, DeliveryOf(before, CopiesOf(DataCopies(HeardBy(c, s)), n)))
  {
    hide DataCopies, CopiesOf, HeardBy, FirstData, PacketsOf;
    FirstCopyOf(c, s, n);
    var copies := CopiesOf(DataCopies(HeardBy(c, s)), n);
    assert IsFirstOn(c, s, DeliveryOf(before, copies), copies[0].path);
  }

  /**
    First good copy wins. Everything a poll delivers under a number is the first copy of it on the
    first path, in configuration order, on which one waits, and is credited to that path.
   */
  lemma PollDeliversFirst(c: Config, s: SessionValue, nowUs: int)
    requires PathIdsFit(s.paths)
    ensures var ds := Poll(c, s, nowUs).delivered;
            forall k :: 0 <= k < |ds| ==> ds[k].seqNo in NumbersSeen(c, s) && FromFirstPath(c, s, ds[k])
  {
    hide AbsorbAll, TakeGroups, HeardBy, DataCopies, FirstSeen, CopiesOf, FromFirstPath;
    var heard, drained := HeardBy(c, s), Drained(s.paths);
    AbsorbSamePaths(c, drained, heard, nowUs);
    var t := s.(paths := AbsorbAll(c, drained, heard, nowUs));
    forall k | 0 <= k < |DataCopies(heard)| ensures DataCopies(heard)[k].path < |t.paths| {
      assert DataCopies(heard)[k] in heard;
    }
    forall n | n in FirstSeen(DataCopies(heard)) ensures CopiesOf(DataCopies(heard), n) != [] {
      SeenIsGroup(DataCopies(heard), n);
    }
    GroupsDeliverFirst(c, s, t, FirstSeen(DataCopies(heard)));
  }

  /** Where a number first comes among the data. */
  function FirstIndex(data: seq<Copy>, n: int): nat {
    if data == [] then 0
    else
      var before := FirstIndex(data[..|data| - 1], n);
      if before < |data| - 1 then before else if data[|data| - 1].pkt.seqNo == n then |data| - 1 else |data|
  }

  lemma {:induction false} FirstIndexBound(data: seq<Copy>, n: int)
    ensures FirstIndex(data, n) <= |data|
    ensures FirstIndex(data, n) < |data| <==> n in FirstSeen(data)
  {
    if data != [] {
      FirstIndexBound(data[..|data| - 1], n);
    }
  }

  /** No reorder hold: the numbers of a poll are taken, and so delivered, in the order in which they first come. */
  lemma {:induction false} SeenInOrder(data: seq<Copy>)
    ensures var r := FirstSeen(data); forall j, k :: 0 <= j < k < |r| ==> FirstIndex(data, r[j]) < FirstIndex(data, r[k])
  {
    if data != [] {
      hide FirstIndex;
      var init, before, r := data[..|data| - 1], FirstSeen(data[..|data| - 1]), FirstSeen(data);
      SeenInOrder(init);
      forall n: int | n in r ensures FirstIndex(data, n) == if n in before then FirstIndex(init, n) else |data| - 1 {
        FirstIndexBound(init, n);
        FirstIndexTurn(data, n);
      }
      forall j, k | 0 <= j < k < |r| ensures FirstIndex(data, r[j]) < FirstIndex(data, r[k]) {
        FirstIndexBound(init, r[j]);
        assert r[j] == before[j];
        if k < |before| {
          assert r[k] == before[k];
        }
      }
    }
  }

  lemma FirstIndexTurn(data: seq<Copy>, n: int)
    requires data != []
    ensures FirstIndex(data, n)
         == var before := FirstIndex(data[..|data| - 1], n);
            if before < |data| - 1 then before else if data[|data| - 1].pkt.seqNo == n then |data| - 1 else |data|
  {
  }
}
