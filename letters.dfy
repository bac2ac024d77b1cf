/** Typing by voice: the spelling alphabet, its capital-letter table, the
    list helpers of the typing grammar, and the shift state machine that turns
    a string (or a list of key names) into key events. */
module Letters {
  import opened Common
  import DfUtils

  // ---------------------------------------------------------------------
  // ASCII case. Text case is modelled on ASCII letters only.
  // ---------------------------------------------------------------------

  predicate IsUpperChar(c: char) {
    'A' <= c <= 'Z'
  }

  predicate IsLowerChar(c: char) {
    'a' <= c <= 'z'
  }

  function UpperChar(c: char): char {
    if IsLowerChar(c) then (c as int - 32) as char else c
  }

  function LowerChar(c: char): char {
    if IsUpperChar(c) then (c as int + 32) as char else c
  }

  /** `str.upper()` */
  function Upper(s: string): (r: string)
    ensures |r| == |s|
    ensures forall i :: 0 <= i < |s| ==> !IsLowerChar(r[i])
  {
    seq(|s|, i requires 0 <= i < |s| => UpperChar(s[i]))
  }

  /** `str.lower()` */
  function Lower(s: string): (r: string)
    ensures |r| == |s|
    ensures forall i :: 0 <= i < |s| ==> !IsUpperChar(r[i])
  {
    seq(|s|, i requires 0 <= i < |s| => LowerChar(s[i]))
  }

  /** `str.upper()` turns each lower-case letter into the upper-case letter
      that lower-cases back to it, and keeps every other character. */
  lemma UpperLetters(s: string)
    ensures |Upper(s)| == |s|
    ensures forall i :: 0 <= i < |s| && IsLowerChar(s[i]) ==>
      IsUpperChar(Upper(s)[i]) && LowerChar(Upper(s)[i]) == s[i]
    ensures forall i :: 0 <= i < |s| && !IsLowerChar(s[i]) ==> Upper(s)[i] == s[i]
  {
  }

  /** `str.lower()` turns each upper-case letter into the lower-case letter
      that upper-cases back to it, and keeps every other character. */
  lemma LowerLetters(s: string)
    ensures |Lower(s)| == |s|
    ensures forall i :: 0 <= i < |s| && IsUpperChar(s[i]) ==>
      IsLowerChar(Lower(s)[i]) && UpperChar(Lower(s)[i]) == s[i]
    ensures forall i :: 0 <= i < |s| && !IsUpperChar(s[i]) ==> Lower(s)[i] == s[i]
  {
  }

  /** `str.isupper()`: at least one cased character, and none of them
      lower-case. */
  predicate IsUpper(s: string) {
    && (exists i :: 0 <= i < |s| && IsUpperChar(s[i]))
    && (forall i :: 0 <= i < |s| ==> !IsLowerChar(s[i]))
  }

  /** An upper-case string is unchanged by `upper()` and changed by
      `lower()`. */
  lemma UpperStringCase(s: string)
    requires IsUpper(s)
    ensures Upper(s) == s && Lower(s) != s
  {
    UpperLetters(s);
    LowerLetters(s);
  }

  // ---------------------------------------------------------------------
  // Tables.
  // ---------------------------------------------------------------------

  const LetterMap: map<string, string> := map[
    "arch" := "a", "brov" := "b", "char" := "c", "delta" := "d",
    "echo" := "e", "foxy" := "f", "golf" := "g", "hotel" := "h",
    "India" := "i", "julia" := "j", "kilo" := "k", "Lima" := "l",
    "Mike" := "m", "norway" := "n", "oscar" := "o", "prime" := "p",
    "Quebec" := "q", "Romeo" := "r", "Sierra" := "s", "tango" := "t",
    "uniform" := "u", "victor" := "v", "wolf" := "w", "x-ray" := "x",
    "yankee" := "y", "Zulu" := "z"]

  /** The "big <letter>" table of the typing grammar. */
  const CapitalLetterTable: map<string, string> := CapitalLetterMap(LetterMap)

  lemma PrefixCancel(p: string, a: string, b: string)
    requires p + a == p + b
    ensures a == b
  {
    assert a == (p + a)[|p|..];
    assert b == (p + b)[|p|..];
  }

  /** `capital_letter_map`: every spoken letter `k` gives the spoken
      "big k", which types the upper-case letter. */
  function CapitalLetterMap(letters: map<string, string>): (r: map<string, string>)
    ensures forall k :: k in letters ==> "big " + k in r && r["big " + k] == Upper(letters[k])
    ensures forall k :: k in r ==> |k| >= 4 && k[..4] == "big " && k[4..] in letters
  {
    forall k1, k2 | k1 in letters && k2 in letters && "big " + k1 == "big " + k2
      ensures k1 == k2
    {
      PrefixCancel("big ", k1, k2);
    }
    map k | k in letters :: "big " + k := Upper(letters[k])
  }

  /** `numbers`: each digit word types its digit. */
  function Numbers(): (r: map<string, string>)
    ensures r.Keys == DfUtils.DigitMap.Keys
    ensures forall k :: k in r ==> r[k] == [DfUtils.DigitChar(DfUtils.DigitMap[k])]
  {
    DfUtils.DigitMapInverse();
    map k | k in DfUtils.DigitMap :: DfUtils.NatToString(DfUtils.DigitMap[k])
  }

  // ---------------------------------------------------------------------
  // List helpers of the typing grammar.
  // ---------------------------------------------------------------------

  /** `multiply_keys((n, key))`: `n` copies of the key; a missing count
      means one copy, and `range` of a negative count is empty. */
  function MultiplyKeys<K>(count: Option<int>, key: K): (r: seq<K>)
    ensures |r| == match count case None => 1 case Some(n) => if n < 0 then 0 else n
    ensures forall i :: 0 <= i < |r| ==> r[i] == key
  {
    var n := if count.None? then 1 else count.value;
    seq(if n < 0 then 0 else n, _ => key)
  }

  /** The in-order concatenation of the lists. */
  function Concat<T>(lists: seq<seq<T>>): seq<T> {
    if lists == [] then [] else Concat(lists[..|lists| - 1]) + lists[|lists| - 1]
  }

  function TotalLength<T>(lists: seq<seq<T>>): nat {
    if lists == [] then 0 else |lists[0]| + TotalLength(lists[1..])
  }

  lemma {:induction false} ConcatAppend<T>(a: seq<seq<T>>, b: seq<seq<T>>)
    ensures Concat(a + b) == Concat(a) + Concat(b)
    decreases |b|
  {
    if b == [] {
      assert a + b == a;
    } else {
      var b' := b[..|b| - 1];
      assert (a + b)[..|a + b| - 1] == a + b';
      assert (a + b)[|a + b| - 1] == b[|b| - 1];
      ConcatAppend(a, b');
    }
  }

  lemma {:induction false} TotalLengthAppend<T>(a: seq<seq<T>>, b: seq<seq<T>>)
    ensures TotalLength(a + b) == TotalLength(a) + TotalLength(b)
  {
    if a == [] {
      assert a + b == b;
    } else {
      assert (a + b)[1..] == a[1..] + b;
      TotalLengthAppend(a[1..], b);
    }
  }

  /** The flattened list is as long as all the lists together. */
  lemma {:induction false} ConcatLength<T>(lists: seq<seq<T>>)
    ensures |Concat(lists)| == TotalLength(lists)
  {
    if lists != [] {
      var init, last := lists[..|lists| - 1], lists[|lists| - 1];
      assert lists == init + [last];
      ConcatLength(init);
      TotalLengthAppend(init, [last]);
      assert TotalLength([last]) == |last|;
    }
  }

  /** List `i` sits, unchanged, right after all the lists before it. */
  lemma ConcatAt<T>(lists: seq<seq<T>>, i: nat)
    requires i < |lists|
    ensures TotalLength(lists[..i]) + |lists[i]| <= |Concat(lists)|
    ensures Concat(lists)[TotalLength(lists[..i])..TotalLength(lists[..i]) + |lists[i]|] == lists[i]
  {
    assert lists == lists[..i] + [lists[i]] + lists[i + 1..];
    ConcatAppend(lists[..i] + [lists[i]], lists[i + 1..]);
    ConcatAppend(lists[..i], [lists[i]]);
    assert Concat([lists[i]]) == lists[i] by {
      assert [lists[i]][..0] == [];
    }
    ConcatLength(lists[..i]);
  }

  /** `flatten_list`. */
  method FlattenList<T>(rep: seq<seq<T>>) returns (flattened: seq<T>)
    ensures flattened == Concat(rep)
  {
    flattened := [];
    for i := 0 to |rep|
      invariant flattened == Concat(rep[..i])
    {
      assert rep[..i + 1][..i] == rep[..i];
      flattened := flattened + rep[i];
    }
    assert rep[..|rep|] == rep;
  }

  // ---------------------------------------------------------------------
  // The shift state machine.
  // ---------------------------------------------------------------------

  const Shift: string := "shift"

  /** The calls `type_characters` makes on the key-input library. */
  datatype KeyEvent = KeyDown(key: string) | KeyUp(key: string) | Press(key: string)

  /** The events for one item when shift is `shiftDown` before it. */
  function StepEvents(item: string, shiftDown: bool): seq<KeyEvent> {
    var shiftChar := IsUpper(item);
    (if shiftChar && !shiftDown then [KeyDown(Shift)]
     else if !shiftChar && shiftDown then [KeyUp(Shift)]
     else [])
    + [Press(Lower(item))]
  }

  /** Every event emitted for `items` from the shift state `shiftDown`,
      the release at the end included. */
  function TypeFrom(items: seq<string>, shiftDown: bool): seq<KeyEvent> {
    if items == [] then (if shiftDown then [KeyUp(Shift)] else [])
    else StepEvents(items[0], shiftDown) + TypeFrom(items[1..], IsUpper(items[0]))
  }

  lemma TypeFromStep(items: seq<string>, i: int, shiftDown: bool)
    requires 0 <= i < |items|
    ensures TypeFrom(items[i..], shiftDown) ==
      StepEvents(items[i], shiftDown) + TypeFrom(items[i + 1..], IsUpper(items[i]))
  {
    assert items[i..][1..] == items[i + 1..];
  }

  /** `type_characters`: `letters` is a string (one item per character) or
      the list of key names the typing grammar recognised. */
  method TypeCharacters(letters: seq<string>) returns (events: seq<KeyEvent>)
    ensures events == TypeFrom(letters, false)
  {
    var shiftDown := false;
    events := [];
    for i := 0 to |letters|
      invariant events + TypeFrom(letters[i..], shiftDown) == TypeFrom(letters, false)
    {
      var item := letters[i];
      TypeFromStep(letters, i, shiftDown);
      ghost var before, step := events, StepEvents(item, shiftDown);
      var shiftChar := IsUpper(item);
      var lowered := Lower(item);
      if shiftChar && !shiftDown {
        events := events + [KeyDown(Shift)];
        shiftDown := true;
      } else if !shiftChar && shiftDown {
        events := events + [KeyUp(Shift)];
        shiftDown := false;
      }
      events := events + [Press(lowered)];
      assert events == before + step && shiftDown == IsUpper(item);
      assert (before + step) + TypeFrom(letters[i + 1..], shiftDown) ==
        before + (step + TypeFrom(letters[i + 1..], shiftDown));
    }
    if shiftDown {
      events := events + [KeyUp(Shift)];
    }
  }

  /** The shift state after one event. */
  function NextHeld(e: KeyEvent, held: bool): bool {
    match e
    case KeyDown(k) => if k == Shift then true else held
    case KeyUp(k) => if k == Shift then false else held
    case Press(_) => held
  }

  /** Whether shift is held after `events`, starting from `held`. */
  function HeldAfter(events: seq<KeyEvent>, held: bool): bool {
    if events == [] then held else HeldAfter(events[1..], NextHeld(events[0], held))
  }

  /** Every key pressed in `events`, with whether shift was held at that
      press. */
  function Presses(events: seq<KeyEvent>, held: bool): seq<(string, bool)> {
    if events == [] then []
    else
      (if events[0].Press? then [(events[0].key, held)] else [])
      + Presses(events[1..], NextHeld(events[0], held))
  }

  predicate IsShiftEvent(e: KeyEvent) {
    (e.KeyDown? || e.KeyUp?) && e.key == Shift
  }

  function ShiftEvents(events: seq<KeyEvent>): seq<KeyEvent> {
    Filter(events, IsShiftEvent)
  }

  /** Shift downs and ups strictly alternate, starting with the one that
      changes the state `held`. */
  predicate Alternating(s: seq<KeyEvent>, held: bool) {
    s == [] || (s[0] == (if held then KeyUp(Shift) else KeyDown(Shift)) && Alternating(s[1..], !held))
  }

  lemma {:induction false} HeldAfterAppend(a: seq<KeyEvent>, b: seq<KeyEvent>, held: bool)
    ensures HeldAfter(a + b, held) == HeldAfter(b, HeldAfter(a, held))
  {
    if a == [] {
      assert a + b == b;
    } else {
      assert (a + b)[0] == a[0] && (a + b)[1..] == a[1..] + b;
      HeldAfterAppend(a[1..], b, NextHeld(a[0], held));
    }
  }

  lemma {:induction false} PressesAppend(a: seq<KeyEvent>, b: seq<KeyEvent>, held: bool)
    ensures Presses(a + b, held) == Presses(a, held) + Presses(b, HeldAfter(a, held))
  {
    if a == [] {
      assert a + b == b;
    } else {
      var head := if a[0].Press? then [(a[0].key, held)] else [];
      var next := NextHeld(a[0], held);
      assert (a + b)[0] == a[0] && (a + b)[1..] == a[1..] + b;
      PressesAppend(a[1..], b, next);
      calc {
        Presses(a + b, held);
        head + Presses(a[1..] + b, next);
        head + (Presses(a[1..], next) + Presses(b, HeldAfter(a[1..], next)));
        (head + Presses(a[1..], next)) + Presses(b, HeldAfter(a[1..], next));
        Presses(a, held) + Presses(b, HeldAfter(a, held));
      }
    }
  }

  /** After one item, shift is held exactly when that item is upper-case. */
  lemma StepState(item: string, shiftDown: bool)
    ensures HeldAfter(StepEvents(item, shiftDown), shiftDown) == IsUpper(item)
    ensures Presses(StepEvents(item, shiftDown), shiftDown) == [(Lower(item), IsUpper(item))]
  {
    var pre := if IsUpper(item) && !shiftDown then [KeyDown(Shift)]
      else if !IsUpper(item) && shiftDown then [KeyUp(Shift)] else [];
    var press := [Press(Lower(item))];
    assert StepEvents(item, shiftDown) == pre + press;
    HeldAfterAppend(pre, press, shiftDown);
    PressesAppend(pre, press, shiftDown);
    assert press[1..] == [];
    if pre != [] {
      assert pre[1..] == [];
    }
  }

  /** One press per item, in input order, of the lower-cased item, with shift
      held exactly when the item was upper-case. */
  lemma {:induction false} TypedPresses(items: seq<string>, shiftDown: bool)
    ensures |Presses(TypeFrom(items, shiftDown), shiftDown)| == |items|
    ensures forall i :: 0 <= i < |items| ==>
      Presses(TypeFrom(items, shiftDown), shiftDown)[i] == (Lower(items[i]), IsUpper(items[i]))
  {
    if items == [] {
      if shiftDown {
        assert [KeyUp(Shift)][1..] == [];
      }
    } else {
      var step := StepEvents(items[0], shiftDown);
      PressesAppend(step, TypeFrom(items[1..], IsUpper(items[0])), shiftDown);
      StepState(items[0], shiftDown);
      TypedPresses(items[1..], IsUpper(items[0]));
    }
  }

  /** Shift is released once all items are typed. */
  lemma {:induction false} TypedReleasesShift(items: seq<string>, shiftDown: bool)
    ensures !HeldAfter(TypeFrom(items, shiftDown), shiftDown)
  {
    if items == [] {
      if shiftDown {
        assert [KeyUp(Shift)][1..] == [];
      }
    } else {
      var step := StepEvents(items[0], shiftDown);
      HeldAfterAppend(step, TypeFrom(items[1..], IsUpper(items[0])), shiftDown);
      StepState(items[0], shiftDown);
      TypedReleasesShift(items[1..], IsUpper(items[0]));
    }
  }

  lemma StepShiftEvents(item: string, shiftDown: bool)
    ensures ShiftEvents(StepEvents(item, shiftDown)) ==
      if IsUpper(item) == shiftDown then []
      else [if shiftDown then KeyUp(Shift) else KeyDown(Shift)]
  {
    var pre := if IsUpper(item) && !shiftDown then [KeyDown(Shift)]
      else if !IsUpper(item) && shiftDown then [KeyUp(Shift)] else [];
    var press := [Press(Lower(item))];
    assert StepEvents(item, shiftDown) == pre + press;
    FilterAppend(pre, press, IsShiftEvent);
  }

  /** The shift downs and ups strictly alternate, the first one changing the
      initial state. */
  lemma {:induction false} TypedShiftAlternates(items: seq<string>, shiftDown: bool)
    ensures Alternating(ShiftEvents(TypeFrom(items, shiftDown)), shiftDown)
  {
    if items == [] {
    } else {
      var step := StepEvents(items[0], shiftDown);
      var rest := TypeFrom(items[1..], IsUpper(items[0]));
      FilterAppend(step, rest, IsShiftEvent);
      StepShiftEvents(items[0], shiftDown);
      TypedShiftAlternates(items[1..], IsUpper(items[0]));
      var s := ShiftEvents(TypeFrom(items, shiftDown));
      if IsUpper(items[0]) != shiftDown {
        var toggle := if shiftDown then KeyUp(Shift) else KeyDown(Shift);
        assert s == [toggle] + ShiftEvents(rest);
        assert s[0] == toggle && s[1..] == ShiftEvents(rest);
      } else {
        assert s == ShiftEvents(rest);
      }
    }
  }

  /** From the released state, shift is touched exactly when some item is
      upper-case. */
  lemma {:induction false} NoShiftWithoutUpper(items: seq<string>)
    ensures ShiftEvents(TypeFrom(items, false)) == [] <==> forall i :: 0 <= i < |items| ==> !IsUpper(items[i])
  {
    if items != [] {
      var step := StepEvents(items[0], false);
      var rest := TypeFrom(items[1..], IsUpper(items[0]));
      FilterAppend(step, rest, IsShiftEvent);
      StepShiftEvents(items[0], false);
      if !IsUpper(items[0]) {
        NoShiftWithoutUpper(items[1..]);
        assert forall i :: 1 <= i < |items| ==> items[i] == items[1..][i - 1];
      }
    }
  }

  /** The whole contract of `type_characters`, from the released state. */
  lemma TypeCharactersFacts(letters: seq<string>)
    ensures var ps := Presses(TypeFrom(letters, false), false);
      && |ps| == |letters|
      && (forall i :: 0 <= i < |letters| ==> ps[i] == (Lower(letters[i]), IsUpper(letters[i])))
    ensures Alternating(ShiftEvents(TypeFrom(letters, false)), false)
    ensures !HeldAfter(TypeFrom(letters, false), false)
  {
    TypedPresses(letters, false);
    TypedShiftAlternates(letters, false);
    TypedReleasesShift(letters, false);
  }
}
