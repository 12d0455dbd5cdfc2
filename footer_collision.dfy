/** The floating chat button's lift above the site footer
    (`useFooterCollision`): how far the footer reaches into the button's
    area, the CSS inset read with `parseInt`, the coalescing of scroll and
    resize events into one animation frame, and the footer observer. The
    page's geometry at each recalculation is an input. */
module FooterCollision {
  import opened Wrappers
  import opened JsText

  /** The fallback button height when the element is not mounted. */
  const ButtonHeight: int := 56
  /** The button's margin from the viewport's bottom (`bottom-6`). */
  const ButtonMargin: int := 24
  const LiftPadding: int := 16

  // ---------------------------------------------------------------------
  // `Number.parseInt(s, 10)`

  predicate IsDigit(c: char) {
    '0' <= c <= '9'
  }

  /** The first position at or after `i` that does not hold a decimal digit
      (`|s|` when there is none). */
  function DigitsEnd(s: string, i: nat): (r: nat)
    requires i <= |s|
    ensures i <= r <= |s|
    ensures forall k :: i <= k < r ==> IsDigit(s[k])
    ensures r == |s| || !IsDigit(s[r])
    decreases |s| - i
  {
    if i < |s| && IsDigit(s[i]) then DigitsEnd(s, i + 1) else i
  }

  function DigitValue(c: char): nat
    requires IsDigit(c)
  {
    c as int - '0' as int
  }

  /** The value of the decimal digits `s[b..e]`, most significant first. */
  function DigitsValue(s: string, b: nat, e: nat): nat
    requires b <= e <= |s|
    requires forall k :: b <= k < e ==> IsDigit(s[k])
    decreases e - b
  {
    if e == b then 0 else DigitsValue(s, b, e - 1) * 10 + DigitValue(s[e - 1])
  }

  /** Where the digits of `parseInt(s, 10)` start: after the leading white
      space and after one `-` or `+`. */
  function DigitsStart(s: string): (r: nat)
    ensures TrimFrom(s) <= r <= |s|
    ensures TrimFrom(s) < |s| && s[TrimFrom(s)] in {'-', '+'} ==> r == TrimFrom(s) + 1
    ensures !(TrimFrom(s) < |s| && s[TrimFrom(s)] in {'-', '+'}) ==> r == TrimFrom(s)
  {
    var a := TrimFrom(s);
    if a < |s| && (s[a] == '-' || s[a] == '+') then a + 1 else a
  }

  /** The sign read by `parseInt` is a minus. */
  predicate Negative(s: string) {
    TrimFrom(s) < |s| && s[TrimFrom(s)] == '-'
  }

  /** `parseInt(s, 10)`: leading white space is skipped, one sign is read,
      then the digits up to the first other character; `None` is `NaN`,
      what is left when there is no digit. */
  function ParseInt(s: string): (r: Option<int>)
    ensures r.None? <==> DigitsStart(s) == |s| || !IsDigit(s[DigitsStart(s)])
  {
    var b := DigitsStart(s);
    var e := DigitsEnd(s, b);
    if e == b then None
    else if Negative(s) then Some(0 - DigitsValue(s, b, e))
    else Some(DigitsValue(s, b, e) as int)
  }

  /** The decimal form of a natural number, as `String(n)` writes it. */
  function NatToString(n: nat): (r: string)
    ensures r != [] && forall i :: 0 <= i < |r| ==> IsDigit(r[i])
  {
    var last := [('0' as int + n % 10) as char];
    if n < 10 then last else NatToString(n / 10) + last
  }

  /** Reading the digits of `n` back, wherever they stand in a string, gives `n`. */
  lemma {:induction false} DigitsValueOfNatToString(s: string, b: nat, m: nat)
    requires b + |NatToString(m)| <= |s|
    requires forall k :: 0 <= k < |NatToString(m)| ==> s[b + k] == NatToString(m)[k]
    ensures forall k :: b <= k < b + |NatToString(m)| ==> IsDigit(s[k])
    ensures DigitsValue(s, b, b + |NatToString(m)|) == m
  {
    var ds := NatToString(m);
    forall k | b <= k < b + |ds| ensures IsDigit(s[k]) {
      assert s[k] == ds[k - b];
    }
    if m >= 10 {
      var p := NatToString(m / 10);
      assert ds == p + [('0' as int + m % 10) as char];
      forall k | 0 <= k < |p| ensures s[b + k] == p[k] {
        assert ds[k] == p[k];
      }
      DigitsValueOfNatToString(s, b, m / 10);
      assert s[b + |p|] == ds[|p|];
    } else {
      assert s[b] == ds[0];
    }
  }

  /** A run of digits that ends at `j`, before a non-digit or the end, is
      read up to `j`. */
  lemma {:induction false} DigitsEndAt(s: string, i: nat, j: nat)
    requires i <= j <= |s|
    requires forall k :: i <= k < j ==> IsDigit(s[k])
    requires j == |s| || !IsDigit(s[j])
    ensures DigitsEnd(s, i) == j
    decreases j - i
  {
    if i < j {
      DigitsEndAt(s, i + 1, j);
    }
  }

  /** A string that starts with a character `trim` keeps starts where `trim` starts. */
  lemma NoLeadingSpace(s: string)
    requires s != [] && !IsTrimmable(s[0])
    ensures TrimFrom(s) == 0
  {
  }

  /** Digits and the minus sign are not white space. */
  lemma SignOrDigitKept(c: char)
    requires IsDigit(c) || c == '-'
    ensures !IsTrimmable(c)
  {
  }

  /** `parseInt` reads back any integer written in decimal, whatever unit
      follows it ("12px" is 12). */
  lemma ParseIntRoundTrip(n: int, unit: string)
    requires unit == [] || !IsDigit(unit[0])
    ensures ParseInt(Signed(n) + unit) == Some(n)
  {
    var m: nat := if n < 0 then -n else n;
    var ds := NatToString(m);
    var sign := if n < 0 then "-" else "";
    var s := Signed(n) + unit;
    assert s == sign + ds + unit;
    var b := |sign|;
    var e := b + |ds|;
    forall k | 0 <= k < |ds| ensures s[b + k] == ds[k] {
    }
    DigitsValueOfNatToString(s, b, m);
    assert s[0] == (if n < 0 then '-' else ds[0]);
    SignOrDigitKept(s[0]);
    NoLeadingSpace(s);
    assert DigitsStart(s) == b;
    assert e < |s| ==> s[e] == unit[0];
    DigitsEndAt(s, b, e);
    assert Negative(s) == (n < 0);
  }

  /** `String(n)`: a minus sign for a negative number, then its digits. */
  function Signed(n: int): (r: string)
    ensures r != []
  {
    (if n < 0 then "-" else "") + NatToString(if n < 0 then -n else n)
  }

  /** `--safe-area-inset-bottom` as the hook reads it: trimmed, an empty
      value read as `parseInt("0")` (which `ZeroParsesAsZero` shows is 0),
      and anything `parseInt` cannot read taken as 0. */
  function SafeAreaInset(raw: string): int {
    var t := Trim(raw);
    if t == "" then 0
    else match ParseInt(t)
      case None => 0
      case Some(n) => n
  }

  /** The fallback "0" reads as 0. */
  lemma ZeroParsesAsZero()
    ensures ParseInt("0") == Some(0)
  {
    assert Signed(0) + "" == "0";
    ParseIntRoundTrip(0, "");
  }

  /** An inset such as "12px" is read as 12, "-3" as -3. */
  lemma InsetReadsLeadingInteger(n: int, unit: string)
    requires unit == [] || !IsDigit(unit[0])
    requires Trim(Signed(n) + unit) == Signed(n) + unit
    ensures SafeAreaInset(Signed(n) + unit) == n
  {
    ParseIntRoundTrip(n, unit);
  }

  /** A value without any digit after its sign, such as "env(...)", counts as 0. */
  lemma UnreadableInsetIsZero(raw: string)
    requires ParseInt(Trim(raw)).None?
    ensures SafeAreaInset(raw) == 0
  {
  }

  // ---------------------------------------------------------------------
  // `calculateOverlap`

  /** `buttonTop + buttonHeight - footerRect.top`, with
      `buttonTop = viewportHeight - (24 + inset) - buttonHeight`. */
  function Overlap(viewportHeight: int, inset: int, buttonHeight: int, footerTop: int): (r: int)
    ensures r == viewportHeight - ButtonMargin - inset - footerTop
  {
    var buttonTop := viewportHeight - (ButtonMargin + inset) - buttonHeight;
    buttonTop + buttonHeight - footerTop
  }

  /** The lift for an overlap: the overlap and the padding, or nothing. */
  function Lift(overlap: int): (r: int)
    ensures r == 0 || r > LiftPadding
    ensures r > 0 <==> overlap > 0
    ensures r > 0 ==> r - LiftPadding == overlap
  {
    if overlap > 0 then overlap + LiftPadding else 0
  }

  /** What `calculateOverlap` reads from the page: the footer's top if the
      footer exists, the viewport height, the raw inset and the button's
      height if it is mounted. */
  datatype Layout = Layout(footerTop: Option<int>, viewportHeight: int, rawInset: string, buttonHeight: Option<int>)

  /** The numbers `calculateOverlap` computes with. */
  datatype Geometry = Geometry(footerTop: Option<int>, viewportHeight: int, inset: int, buttonHeight: int)

  /** The page read: the inset parsed, the button's fallback height applied. */
  function Measure(layout: Layout): (g: Geometry)
    ensures g.footerTop == layout.footerTop && g.viewportHeight == layout.viewportHeight
    ensures g.inset == SafeAreaInset(layout.rawInset)
    ensures g.buttonHeight == if layout.buttonHeight.Some? then layout.buttonHeight.value else ButtonHeight
  {
    Geometry(layout.footerTop, layout.viewportHeight, SafeAreaInset(layout.rawInset),
      if layout.buttonHeight.Some? then layout.buttonHeight.value else ButtonHeight)
  }

  /** The lift after `calculateOverlap` runs, starting from `lift`: unchanged
      without a footer, else the lift for the footer's reach into the button's area. */
  function Recalculated(lift: int, g: Geometry): (r: int)
    ensures g.footerTop.None? ==> r == lift
    ensures g.footerTop.Some? ==> r == Lift(g.viewportHeight - ButtonMargin - g.inset - g.footerTop.value)
  {
    match g.footerTop
    case None => lift
    case Some(top) => Lift(Overlap(g.viewportHeight, g.inset, g.buttonHeight, top))
  }

  /** The button's height never changes the lift. */
  lemma LiftIgnoresButtonHeight(g: Geometry, h1: int, h2: int, lift: int)
    ensures Recalculated(lift, g.(buttonHeight := h1)) == Recalculated(lift, g.(buttonHeight := h2))
  {
  }

  /** The observer's batch, entry by entry: an intersecting entry
      recalculates, any other resets the lift to 0. */
  function ObserverFold(lift: int, entries: seq<bool>, g: Geometry): int
    decreases |entries|
  {
    if entries == [] then lift
    else ObserverFold(if entries[0] then Recalculated(lift, g) else 0, entries[1..], g)
  }

  /** With the footer in the document only the last entry of a batch counts. */
  lemma {:induction false} LastEntryDecides(lift: int, entries: seq<bool>, g: Geometry)
    requires entries != [] && g.footerTop.Some?
    ensures ObserverFold(lift, entries, g) ==
      if entries[|entries| - 1] then Recalculated(lift, g) else 0
    decreases |entries|
  {
    if |entries| > 1 {
      var next := if entries[0] then Recalculated(lift, g) else 0;
      LastEntryDecides(next, entries[1..], g);
      assert Recalculated(next, g) == Recalculated(lift, g);
    }
  }

  /** A batch ending with an entry that is not intersecting leaves no lift. */
  lemma {:induction false} LeavingFooterResets(lift: int, entries: seq<bool>, g: Geometry)
    requires entries != [] && !entries[|entries| - 1]
    ensures ObserverFold(lift, entries, g) == 0
    decreases |entries|
  {
    if |entries| > 1 {
      LeavingFooterResets(if entries[0] then Recalculated(lift, g) else 0, entries[1..], g);
    }
  }

  /** Folding over a longer batch is folding over its last entry after the rest. */
  lemma {:induction false} ObserverFoldSnoc(lift: int, entries: seq<bool>, e: bool, g: Geometry)
    ensures ObserverFold(lift, entries + [e], g) ==
      (var before := ObserverFold(lift, entries, g); if e then Recalculated(before, g) else 0)
    decreases |entries|
  {
    if entries == [] {
      assert entries + [e] == [e];
    } else {
      assert (entries + [e])[1..] == entries[1..] + [e];
      ObserverFoldSnoc(if entries[0] then Recalculated(lift, g) else 0, entries[1..], e, g);
    }
  }

  class Tracker {
    var liftAmount: int
    /** `rafRef.current`: the last frame requested, if any. */
    var rafRef: Option<nat>
    /** The frames requested that have neither run nor been cancelled. */
    var liveFrames: set<nat>
    /** The id the next `requestAnimationFrame` call hands out. The ids are
        positive, so the hook's `if (rafRef.current)` sees every one of them. */
    var nextFrameId: nat
    /** The scroll and resize listeners are attached. */
    var listening: bool
    /** The footer observer is connected (the footer existed on mount). */
    var observing: bool

    ghost predicate Valid()
      reads this
    {
      && liveFrames <= (if rafRef.Some? then {rafRef.value} else {})
      && nextFrameId >= 1
      && (rafRef.Some? ==> 1 <= rafRef.value < nextFrameId)
    }

    /** The mount effect: one calculation, the listeners, and an observer
        when the footer is there. */
    constructor (layout: Layout)
      ensures Valid() && liftAmount == Recalculated(0, Measure(layout))
      ensures rafRef == None && liveFrames == {} && nextFrameId == 1
      ensures listening && observing == layout.footerTop.Some?
    {
      liftAmount := Recalculated(0, Measure(layout));
      rafRef, liveFrames, nextFrameId := None, {}, 1;
      listening, observing := true, layout.footerTop.Some?;
    }

    /** `handleScroll`: the pending frame, if any, is cancelled and a new one
        requested, so one recalculation at most is pending. */
    method HandleScroll()
      requires Valid() && listening
      modifies this
      ensures Valid()
      ensures rafRef == Some(old(nextFrameId)) && liveFrames == {old(nextFrameId)}
      ensures nextFrameId == old(nextFrameId) + 1
      ensures liftAmount == old(liftAmount) && listening == old(listening) && observing == old(observing)
    {
      if rafRef.Some? {
        liveFrames := liveFrames - {rafRef.value};
      }
      var id := nextFrameId;
      nextFrameId := nextFrameId + 1;
      liveFrames := liveFrames + {id};
      rafRef := Some(id);
    }

    /** A requested frame runs `calculateOverlap`. */
    method FrameFires(id: nat, layout: Layout)
      requires Valid() && id in liveFrames
      modifies this
      ensures Valid() && liveFrames == old(liveFrames) - {id} && liveFrames == {}
      ensures liftAmount == Recalculated(old(liftAmount), Measure(layout))
      ensures rafRef == old(rafRef) && nextFrameId == old(nextFrameId)
      ensures listening == old(listening) && observing == old(observing)
    {
      assert rafRef.Some? && id == rafRef.value;
      assert forall x :: x in liveFrames ==> x == id;
      liveFrames := liveFrames - {id};
      assert liveFrames == {};
      var g := Measure(layout);
      liftAmount := Recalculated(liftAmount, g);
    }

    /** The observer's callback over its batch of entries, in order. */
    method ObserverCallback(entries: seq<bool>, layout: Layout)
      requires Valid() && observing
      modifies this
      ensures Valid()
      ensures liftAmount == ObserverFold(old(liftAmount), entries, Measure(layout))
      ensures rafRef == old(rafRef) && liveFrames == old(liveFrames) && nextFrameId == old(nextFrameId)
      ensures listening == old(listening) && observing == old(observing)
    {
      var g := Measure(layout);
      var i := 0;
      while i < |entries|
        invariant 0 <= i <= |entries|
        invariant liftAmount == ObserverFold(old(liftAmount), entries[..i], g)
        invariant rafRef == old(rafRef) && liveFrames == old(liveFrames) && nextFrameId == old(nextFrameId)
        invariant listening == old(listening) && observing == old(observing)
      {
        ObserverFoldSnoc(old(liftAmount), entries[..i], entries[i], g);
        assert entries[..i + 1] == entries[..i] + [entries[i]];
        if entries[i] {
          liftAmount := Recalculated(liftAmount, g);
        } else {
          liftAmount := 0;
        }
        i := i + 1;
      }
      assert entries[..i] == entries;
    }

    /** The effect's cleanup: the observer disconnected, the listeners
        removed and the pending frame cancelled. */
    method Teardown()
      requires Valid()
      modifies this
      ensures Valid() && liveFrames == {} && !listening && !observing
      ensures liftAmount == old(liftAmount) && rafRef == old(rafRef) && nextFrameId == old(nextFrameId)
    {
      if rafRef.Some? {
        liveFrames := liveFrames - {rafRef.value};
      }
      listening, observing := false, false;
    }
  }

  /** Under the invariant no more than one frame is ever pending. */
  lemma AtMostOnePendingFrame(t: Tracker)
    requires t.Valid()
    ensures |t.liveFrames| <= 1
  {
    var bound := if t.rafRef.Some? then {t.rafRef.value} else {};
    assert |bound| <= 1;
    SubsetCardinality(t.liveFrames, bound);
  }

  lemma SubsetCardinality(a: set<nat>, b: set<nat>)
    requires a <= b
    ensures |a| <= |b|
  {
    assert b == a + (b - a);
  }
}
