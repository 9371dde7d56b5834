/** First good copy wins: the receiver's pruned window against a full history. */
module MlinkDedupe {
  import opened Wrappers

  datatype Verdict = Deliver | Duplicate | Late

  /** The object's value: at most the numbers the source keeps. */
  datatype Window = Window(size: int, highest: Option<int>, delivered: set<int>) {

    predicate IsLate(seqNo: int) {
      highest.Some? && highest.value - seqNo >= size
    }

    function Judge(seqNo: int): Verdict {
      if IsLate(seqNo) then Late else if seqNo in delivered then Duplicate else Deliver
    }

    predicate IsNewHighest(seqNo: int) {
      highest == None || seqNo > highest.value
    }

    /** One observation, with the source's pruning. */
    function Observe(seqNo: int): Window {
      if Judge(seqNo) != Deliver then this
      else
        var grown := delivered + {seqNo};
        if !IsNewHighest(seqNo) then this.(delivered := grown)
        else if seqNo - size >= 0 && |grown| > size then
          Window(size, Some(seqNo), set s | s in grown && s > seqNo - size)
        else Window(size, Some(seqNo), grown)
    }

    /** One observation that forgets nothing. */
    function Remember(seqNo: int): Window {
      if Judge(seqNo) != Deliver then this
      else Window(size, if IsNewHighest(seqNo) then Some(seqNo) else highest, delivered + {seqNo})
    }
  }

  function Fresh(size: int): Window {
    Window(size, None, {})
  }

  // ---------- The pruned window refines the full history ----------

  /** Same highest number, and nothing forgotten that could still be asked for. */
  ghost predicate Refines(w: Window, full: Window) {
    && w.size == full.size >= 1 && w.highest == full.highest && w.delivered <= full.delivered
    && (full.highest == None ==> full.delivered == {})
    && (forall s :: s in full.delivered ==> s <= full.highest.value)
    && (forall s :: s in full.delivered && !full.IsLate(s) ==> s in w.delivered)
  }

  lemma ObserveRefines(w: Window, full: Window, seqNo: int)
    requires Refines(w, full)
    ensures w.Judge(seqNo) == full.Judge(seqNo)
    ensures Refines(w.Observe(seqNo), full.Remember(seqNo))
  {
    if full.Judge(seqNo) == Deliver {
      var w', full' := w.Observe(seqNo), full.Remember(seqNo);
      assert forall s :: s in full'.delivered && !full'.IsLate(s) && s != seqNo ==> !full.IsLate(s);
    }
  }

  function Fed(w: Window, calls: seq<int>): Window {
    if calls == [] then w else Fed(w, calls[..|calls| - 1]).Observe(calls[|calls| - 1])
  }

  function Remembered(w: Window, calls: seq<int>): Window {
    if calls == [] then w else Remembered(w, calls[..|calls| - 1]).Remember(calls[|calls| - 1])
  }

  /** After any calls whatever, the next verdict is the one a full history would give. */
  lemma {:induction false} SameVerdicts(size: int, calls: seq<int>, next: int)
    requires size >= 1
    ensures Refines(Fed(Fresh(size), calls), Remembered(Fresh(size), calls))
    ensures Fed(Fresh(size), calls).Judge(next) == Remembered(Fresh(size), calls).Judge(next)
  {
    if calls == [] {
    } else {
      var before, last := calls[..|calls| - 1], calls[|calls| - 1];
      SameVerdicts(size, before, last);
      ObserveRefines(Fed(Fresh(size), before), Remembered(Fresh(size), before), last);
      ObserveRefines(Fed(Fresh(size), calls), Remembered(Fresh(size), calls), next);
    }
  }

  /** A number delivered once is never delivered again, however many calls follow. */
  lemma {:induction false} DeliveredOnce(size: int, calls: seq<int>, i: nat, j: nat)
    requires size >= 1 && i < j < |calls|
    requires Fed(Fresh(size), calls[..i]).Judge(calls[i]) == Deliver
    ensures calls[j] == calls[i] ==> Fed(Fresh(size), calls[..j]).Judge(calls[j]) != Deliver
  {
    SameVerdicts(size, calls[..i], calls[i]);
    SameVerdicts(size, calls[..j], calls[j]);
    StaysDelivered(size, calls, i, j);
  }

  lemma {:induction false} StaysDelivered(size: int, calls: seq<int>, i: nat, j: nat)
    requires i < j <= |calls|
    requires Remembered(Fresh(size), calls[..i]).Judge(calls[i]) == Deliver
    ensures calls[i] in Remembered(Fresh(size), calls[..j]).delivered
  {
    assert calls[..j][..j - 1] == calls[..j - 1];
    if j > i + 1 {
      StaysDelivered(size, calls, i, j - 1);
    }
  }

  // ---------- The window stays small ----------

  /** Numbers kept although they are already late. */
  function Stale(w: Window): set<int> {
    set s | s in w.delivered && w.IsLate(s)
  }

  ghost predicate Compact(w: Window) {
    && w.size >= 1
    && (forall s :: s in w.delivered ==> 0 <= s)
    && (w.highest == None ==> w.delivered == {})
    && (w.highest.Some? ==> w.highest.value in w.delivered && forall s :: s in w.delivered ==> s <= w.highest.value)
    && |Stale(w)| <= w.size - 1
  }

  lemma {:induction false} IntervalSize(numbers: set<int>, low: int, high: int)
    requires low <= high
    requires forall s :: s in numbers ==> low < s <= high
    ensures |numbers| <= high - low
    decreases high - low
  {
    if low == high {
      assert forall s :: s !in numbers;
    } else {
      var below := numbers - {high};
      IntervalSize(below, low, high - 1);
      assert numbers <= below + {high};
    }
  }

  lemma SubsetSize(a: set<int>, b: set<int>)
    requires a <= b
    ensures |a| <= |b|
  {
    assert b == a + (b - a);
  }

  lemma CompactIsSmall(w: Window)
    requires Compact(w)
    ensures |w.delivered| <= 2 * w.size - 1
  {
    if w.highest.Some? {
      var live := w.delivered - Stale(w);
      IntervalSize(live, w.highest.value - w.size, w.highest.value);
      assert w.delivered == Stale(w) + live;
    }
  }

  lemma ObserveCompact(w: Window, seqNo: int)
    requires Compact(w) && seqNo >= 0
    ensures Compact(w.Observe(seqNo))
  {
    var w' := w.Observe(seqNo);
    if w.Judge(seqNo) == Deliver {
      var grown := w.delivered + {seqNo};
      if !w.IsNewHighest(seqNo) {
        assert Stale(w') == Stale(w);
      } else if seqNo - w.size >= 0 && |grown| <= w.size {
        SubsetSize(Stale(w'), grown - {seqNo});
      } else {
        assert Stale(w') == {};
      }
    }
  }

  /** The set never exceeds 2 * window - 1 entries when no number is negative. */
  lemma {:induction false} BoundedMemory(size: int, calls: seq<int>)
    requires size >= 1 && forall k :: 0 <= k < |calls| ==> calls[k] >= 0
    ensures Compact(Fed(Fresh(size), calls))
    ensures |Fed(Fresh(size), calls).delivered| <= 2 * size - 1
  {
    FedSize(Fresh(size), calls);
    if calls == [] {
      assert Stale(Fresh(size)) == {};
    } else {
      BoundedMemory(size, calls[..|calls| - 1]);
      ObserveCompact(Fed(Fresh(size), calls[..|calls| - 1]), calls[|calls| - 1]);
    }
    CompactIsSmall(Fed(Fresh(size), calls));
  }

  lemma {:induction false} FedSize(w: Window, calls: seq<int>)
    ensures Fed(w, calls).size == w.size
  {
    if calls != [] {
      FedSize(w, calls[..|calls| - 1]);
    }
  }

  // ---------- The object ----------

  class DedupeWindow {
    const window: int
    var highest: Option<int>
    var delivered: set<int>

    function Value(): Window
      reads this
    {
      Window(window, highest, delivered)
    }

    constructor (window: int)
      requires window >= 1
      ensures Value() == Fresh(window)
    {
      this.window := window;
      highest := None;
      delivered := {};
    }

    method Observe(seqNo: int) returns (verdict: Verdict)
      modifies this
      ensures verdict == old(Value()).Judge(seqNo)
      ensures Value() == old(Value()).Observe(seqNo)
    {
      if highest.Some? && highest.value - seqNo >= window {
        return Late;
      }
      if seqNo in delivered {
        return Duplicate;
      }
      delivered := delivered + {seqNo};
      if highest == None || seqNo > highest.value {
        highest := Some(seqNo);
        var cutoff := seqNo - window;
        if cutoff >= 0 && |delivered| > window {
          delivered := set s | s in delivered && s > cutoff;
        }
      }
      return Deliver;
    }
  }

  // ---------- The verdict, from the numbers delivered ----------

  /** Some known number is a window or more ahead. */
  predicate Overtaken(known: set<int>, size: int, n: int) {
    exists m :: m in known && m - n >= size
  }

  /** The numbers delivered by these calls. */
  function DeliveredBy(size: int, calls: seq<int>): set<int> {
    if calls == [] then {}
    else
      var before, n := DeliveredBy(size, calls[..|calls| - 1]), calls[|calls| - 1];
      if n in before || Overtaken(before, size, n) then before else before + {n}
  }

  /** The history is the numbers delivered, and the highest is the greatest of them. */
  ghost predicate Knows(w: Window, size: int, known: set<int>) {
    && w.size == size && w.delivered == known
    && (w.highest == None <==> known == {})
    && (w.highest.Some? ==> w.highest.value in known && forall m :: m in known ==> m <= w.highest.value)
  }

  lemma {:induction false} RememberedKnows(size: int, calls: seq<int>)
    requires size >= 1
    ensures Knows(Remembered(Fresh(size), calls), size, DeliveredBy(size, calls))
  {
    if calls != [] {
      RememberedKnows(size, calls[..|calls| - 1]);
    }
  }

  lemma VerdictOfKnown(w: Window, size: int, known: set<int>, next: int)
    requires Knows(w, size, known)
    ensures w.IsLate(next) <==> Overtaken(known, size, next)
  {
    if w.IsLate(next) {
      assert w.highest.value in known;
    }
  }

  /**
    After any calls, a number is late exactly when some number delivered is a window or more ahead
    of it, a duplicate exactly when it is not late and was delivered, and delivered otherwise.
   */
  lemma VerdictByDelivered(size: int, calls: seq<int>, next: int)
    requires size >= 1
    ensures var verdict, known := Fed(Fresh(size), calls).Judge(next), DeliveredBy(size, calls);
            && (verdict == Late <==> Overtaken(known, size, next))
            && (verdict == Duplicate <==> next in known && !Overtaken(known, size, next))
            && (verdict == Deliver <==> next !in known && !Overtaken(known, size, next))
  {
    SameVerdicts(size, calls, next);
    RememberedKnows(size, calls);
    VerdictOfKnown(Remembered(Fresh(size), calls), size, DeliveredBy(size, calls), next);
  }
}
