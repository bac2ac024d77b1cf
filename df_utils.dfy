/** Helpers of the speech client's grammar: the actions that turn a
    recognised utterance into a call (keyword filtering and argument
    formatting), and the spoken-number elements with their digit tables. */
module DfUtils {
  import opened Common

  // ---------------------------------------------------------------------
  // Actions: the recognised extras become the called function's arguments.
  // ---------------------------------------------------------------------

  /** The Python values that flow through an action: strings, integers,
      lists (a list is unhashable, so looking it up in a dict raises), and any
      other hashable value that is never a key of the keyword map, such as
      `None` or a function, told apart by a tag. */
  datatype Value = Str(s: string) | Int(i: int) | List(items: seq<Value>) | Other(tag: nat)

  predicate StartsWithUnderscore(k: string) {
    |k| > 0 && k[0] == '_'
  }

  /** The keyword arguments `execute` passes on: every entry of the
      recognition data whose key does not start with `_`. */
  function Kwargs<V>(data: map<string, V>): (kwargs: map<string, V>)
    ensures forall k :: k in kwargs <==> k in data && !StartsWithUnderscore(k)
    ensures forall k :: k in kwargs ==> kwargs[k] == data[k]
  {
    map k | k in data && !StartsWithUnderscore(k) :: data[k]
  }

  /** `kw.get(a, a)`: a string naming a keyword is replaced by that keyword's
      value; any other hashable value is not a key and is kept, and a list is
      unhashable, so the lookup raises `TypeError` and the list is kept. */
  function FormatArg(a: Value, kw: map<string, Value>): (r: Value)
    ensures a.Str? && a.s in kw ==> r == kw[a.s]
    ensures !(a.Str? && a.s in kw) ==> r == a
  {
    match a
    case Str(name) => if name in kw then kw[name] else a
    case Int(_) => a
    case List(_) => a
    case Other(_) => a
  }

  /** The list `format_args` returns, as a function for use in specifications. */
  function FormattedArgs(args: seq<Value>, kw: map<string, Value>): (r: seq<Value>)
    ensures |r| == |args|
    ensures forall i :: 0 <= i < |args| ==> r[i] == FormatArg(args[i], kw)
  {
    if args == [] then [] else [FormatArg(args[0], kw)] + FormattedArgs(args[1..], kw)
  }

  method FormatArgs(args: seq<Value>, kw: map<string, Value>) returns (formatted: seq<Value>)
    ensures |formatted| == |args|
    ensures forall i :: 0 <= i < |args| ==>
      formatted[i] == if args[i].Str? && args[i].s in kw then kw[args[i].s] else args[i]
    ensures formatted == FormattedArgs(args, kw)
  {
    formatted := [];
    for i := 0 to |args|
      invariant |formatted| == i
      invariant forall j :: 0 <= j < i ==> formatted[j] == FormatArg(args[j], kw)
    {
      var a := args[i];
      var formattedArg := FormatArg(a, kw);
      formatted := formatted + [formattedArg];
    }
  }

  /** How `execute` calls the wrapped function: with the formatted positional
      arguments when the action has an argument list, otherwise with the
      filtered data as keyword arguments. */
  datatype Call = PositionalCall(args: seq<Value>) | KeywordCall(kwargs: map<string, Value>)

  /** The argument list is bound to the parameter `args` of `format_args`,
      so a keyword `args` in the data binds it a second time: `TypeError`. */
  datatype ExecuteError = ArgsGivenTwice

  function ExecuteCall(data: map<string, Value>, formatArgs: Option<seq<Value>>): (c: Result<Call, ExecuteError>)
    ensures c.Failure? <==> formatArgs.Some? && "args" in data
    ensures c.Failure? ==> c.error == ArgsGivenTwice
    ensures formatArgs.None? ==>
      && c.Success? && c.value.KeywordCall?
      && (forall k :: k in c.value.kwargs <==> k in data && !StartsWithUnderscore(k))
      && (forall k :: k in c.value.kwargs ==> k in data && c.value.kwargs[k] == data[k])
    ensures formatArgs.Some? && c.Success? ==>
      && c.value.PositionalCall?
      && |c.value.args| == |formatArgs.value|
      && (forall i :: 0 <= i < |formatArgs.value| ==>
            c.value.args[i] == FormatArg(formatArgs.value[i], Kwargs(data)))
  {
    var kwargs := Kwargs(data);
    match formatArgs
    case Some(args) =>
      if "args" in kwargs then Failure(ArgsGivenTwice) else Success(PositionalCall(FormattedArgs(args, kwargs)))
    case None => Success(KeywordCall(kwargs))
  }

  /** Entries whose key starts with `_` never influence the call: adding,
      changing or removing one leaves it as it was. */
  lemma UnderscoreEntriesIgnored(data: map<string, Value>, k: string, v: Value, formatArgs: Option<seq<Value>>)
    requires StartsWithUnderscore(k)
    ensures ExecuteCall(data[k := v], formatArgs) == ExecuteCall(data, formatArgs)
    ensures ExecuteCall(data - {k}, formatArgs) == ExecuteCall(data, formatArgs)
  {
    assert Kwargs(data[k := v]) == Kwargs(data);
    assert Kwargs(data - {k}) == Kwargs(data);
  }

  // ---------------------------------------------------------------------
  // Digit tables.
  // ---------------------------------------------------------------------

  const TenThroughTwelveMap: map<string, nat> := map["ten" := 10, "eleven" := 11, "twelve" := 12]

  const DigitMap: map<string, nat> := map[
    "zero" := 0, "one" := 1, "too" := 2, "three" := 3, "four" := 4,
    "five" := 5, "six" := 6, "seven" := 7, "eight" := 8, "nine" := 9]

  const NonZeroDigitMap: map<string, nat> := map[
    "one" := 1, "too" := 2, "three" := 3, "four" := 4,
    "five" := 5, "six" := 6, "seven" := 7, "eight" := 8, "nine" := 9]

  /** The digit words in the order of their values, as a reference for the
      tables. */
  const DigitWords: seq<string> := ["zero", "one", "too", "three", "four", "five", "six", "seven", "eight", "nine"]

  /** Each word of the digit table stands for its position in `DigitWords`. */
  lemma DigitMapInverse()
    ensures forall w :: w in DigitMap ==> DigitMap[w] < 10 && DigitWords[DigitMap[w]] == w
  {
  }

  /** Each of the ten digits has its word in the digit table. */
  lemma DigitWordsInMap()
    ensures forall d :: 0 <= d < 10 ==> DigitWords[d] in DigitMap && DigitMap[DigitWords[d]] == d
  {
  }

  /** The digits of a sequence of digit words. */
  function DigitValues(words: seq<string>): (ds: seq<nat>)
    requires forall i :: 0 <= i < |words| ==> words[i] in DigitMap
    ensures |ds| == |words| && AreDigits(ds)
    ensures forall i :: 0 <= i < |words| ==> ds[i] == DigitMap[words[i]]
  {
    DigitMapInverse();
    seq(|words|, i requires 0 <= i < |words| => DigitMap[words[i]])
  }

  /** The digit table gives its ten words the ten digits, each word a
      different digit, and the non-zero table gives its words 1 to 9. */
  lemma DigitTables()
    ensures NonZeroDigitMap == DigitMap - {"zero"}
    ensures forall d: nat :: d in DigitMap.Values <==> d < 10
    ensures forall w, w' :: w in DigitMap && w' in DigitMap && w != w' ==> DigitMap[w] != DigitMap[w']
    ensures forall w :: w in NonZeroDigitMap ==> 1 <= NonZeroDigitMap[w] <= 9
  {
    DigitMapInverse();
    DigitWordsInMap();
    assert NonZeroDigitMap == DigitMap - {"zero"} by {
      assert NonZeroDigitMap.Keys == DigitMap.Keys - {"zero"};
    }
    forall d: nat | d < 10 ensures d in DigitMap.Values {
      assert DigitMap[DigitWords[d]] == d;
    }
    forall w | w in NonZeroDigitMap ensures 1 <= NonZeroDigitMap[w] <= 9 {
      assert w in DigitMap && w != "zero";
      assert DigitWords[0] == "zero";
    }
  }

  // ---------------------------------------------------------------------
  // Decimal strings: Python's `str` of a natural number and `int` of a
  // string of digits.
  // ---------------------------------------------------------------------

  predicate IsDigitChar(c: char) {
    '0' <= c <= '9'
  }

  predicate AllDigits(s: string) {
    forall i :: 0 <= i < |s| ==> IsDigitChar(s[i])
  }

  function DigitChar(d: nat): (c: char)
    requires d < 10
    ensures IsDigitChar(c)
  {
    ('0' as int + d) as char
  }

  function DigitOf(c: char): (d: nat)
    requires IsDigitChar(c)
    ensures d < 10 && DigitChar(d) == c
  {
    c as int - '0' as int
  }

  function Pow10(k: nat): (p: nat)
    ensures p >= 1
  {
    if k == 0 then 1 else 10 * Pow10(k - 1)
  }

  /** `int(s)` for a string of decimal digits; leading zeros are allowed. */
  function DecimalValue(s: string): nat
    requires AllDigits(s)
  {
    if s == [] then 0 else DecimalValue(s[..|s| - 1]) * 10 + DigitOf(s[|s| - 1])
  }

  /** `str(n)`: the decimal digits of `n` without leading zeros, which
      `int` reads back as `n`. */
  function NatToString(n: nat): (s: string)
    ensures |s| >= 1 && AllDigits(s)
    ensures s[0] == '0' ==> n == 0
    ensures n < 10 ==> s == [DigitChar(n)]
    ensures DecimalValue(s) == n
    decreases n
  {
    if n < 10 then [DigitChar(n)]
    else
      var prefix := NatToString(n / 10);
      var s := prefix + [DigitChar(n % 10)];
      assert s[..|s| - 1] == prefix;
      s
  }

  lemma {:induction false} DecimalAppend(a: string, b: string)
    requires AllDigits(a) && AllDigits(b)
    ensures AllDigits(a + b)
    ensures DecimalValue(a + b) == DecimalValue(a) * Pow10(|b|) + DecimalValue(b)
  {
    if b == [] {
      assert a + b == a;
    } else {
      var b', d := b[..|b| - 1], DigitOf(b[|b| - 1]);
      assert (a + b)[..|a + b| - 1] == a + b';
      assert (a + b)[|a + b| - 1] == b[|b| - 1];
      DecimalAppend(a, b');
      calc {
        DecimalValue(a + b);
        DecimalValue(a + b') * 10 + d;
        (DecimalValue(a) * Pow10(|b'|) + DecimalValue(b')) * 10 + d;
        { ShiftDigit(DecimalValue(a), Pow10(|b'|), DecimalValue(b'), d); }
        DecimalValue(a) * Pow10(|b|) + DecimalValue(b);
      }
    }
  }

  lemma ShiftDigit(x: nat, p: nat, y: nat, d: nat)
    ensures (x * p + y) * 10 + d == x * (10 * p) + (y * 10 + d)
  {
  }

  /** `"".join(str(d) for d in ds)`. */
  function JoinDigits(ds: seq<nat>): (s: string)
    ensures AllDigits(s)
  {
    if ds == [] then [] else NatToString(ds[0]) + JoinDigits(ds[1..])
  }

  lemma {:induction false} JoinDigitsAppend(a: seq<nat>, b: seq<nat>)
    ensures JoinDigits(a + b) == JoinDigits(a) + JoinDigits(b)
  {
    if a == [] {
      assert a + b == b;
    } else {
      assert (a + b)[1..] == a[1..] + b;
      JoinDigitsAppend(a[1..], b);
    }
  }

  predicate AreDigits(ds: seq<nat>) {
    forall i :: 0 <= i < |ds| ==> ds[i] < 10
  }

  /** The number whose decimal digits are `ds`, most significant first. */
  function DigitsValue(ds: seq<nat>): nat {
    if ds == [] then 0 else DigitsValue(ds[..|ds| - 1]) * 10 + ds[|ds| - 1]
  }

  lemma {:induction false} JoinDigitsValue(ds: seq<nat>)
    requires AreDigits(ds)
    ensures DecimalValue(JoinDigits(ds)) == DigitsValue(ds)
  {
    if ds != [] {
      var init, last := ds[..|ds| - 1], ds[|ds| - 1];
      assert ds == init + [last];
      JoinDigitsAppend(init, [last]);
      assert JoinDigits([last]) == NatToString(last);
      JoinDigitsValue(init);
      DecimalAppend(JoinDigits(init), NatToString(last));
    }
  }

  lemma DigitStringValue(first: nat, rest: seq<nat>)
    requires first < 10 && AreDigits(rest)
    ensures DecimalValue(NatToString(first) + JoinDigits(rest)) == DigitsValue([first] + rest)
  {
    assert JoinDigits([first]) == NatToString(first);
    JoinDigitsAppend([first], rest);
    JoinDigitsValue([first] + rest);
  }

  /** `parse_numrep((first, rest))`: `str(first)` followed by the joined
      `str(d)` of the rest, read back by `int`. For digits this is the number
      whose digits are `first` followed by `rest`. */
  function ParseNumrep(first: nat, rest: seq<nat>): (r: nat)
    ensures first < 10 && AreDigits(rest) ==> r == DigitsValue([first] + rest)
  {
    var v := DecimalValue(NatToString(first) + JoinDigits(rest));
    if first < 10 && AreDigits(rest) then DigitStringValue(first, rest); v else v
  }

  /** A single number parses to itself. */
  lemma ParseNumrepSingle(d: nat)
    ensures ParseNumrep(d, []) == d
  {
    assert NatToString(d) + JoinDigits([]) == NatToString(d);
  }

  lemma {:induction false} DigitsValueBounds(ds: seq<nat>)
    requires |ds| >= 1 && ds[0] >= 1 && AreDigits(ds)
    ensures Pow10(|ds| - 1) <= DigitsValue(ds) < Pow10(|ds|)
  {
    if |ds| > 1 {
      DigitsValueBounds(ds[..|ds| - 1]);
    }
  }

  lemma {:induction false} NatToStringLength(n: nat, k: nat)
    requires k >= 1 && Pow10(k - 1) <= n < Pow10(k)
    ensures |NatToString(n)| == k
    decreases n
  {
    if n >= 10 {
      NatToStringLength(n / 10, k - 1);
    }
  }

  /** With a non-zero first digit, the parsed number is at least 1 and has
      exactly `1 + |rest|` decimal digits. */
  lemma ParseNumrepDigitCount(first: nat, rest: seq<nat>)
    requires 1 <= first < 10 && AreDigits(rest)
    ensures 1 <= Pow10(|rest|) <= ParseNumrep(first, rest) < Pow10(|rest| + 1)
    ensures |NatToString(ParseNumrep(first, rest))| == 1 + |rest|
  {
    DigitsValueBounds([first] + rest);
    NatToStringLength(ParseNumrep(first, rest), 1 + |rest|);
  }

  // ---------------------------------------------------------------------
  // Spoken numbers.
  // ---------------------------------------------------------------------

  /** What `positive_num` recognises: a non-zero digit word followed by zero
      to nine digit words (the repetition's maximum of 10 is exclusive), or one
      of "ten", "eleven", "twelve". */
  datatype SpokenNumber =
    | PositiveDigits(first: string, rest: seq<string>)
    | TenThroughTwelve(word: string)

  /** The utterances the grammar elements can produce. */
  predicate Recognised(n: SpokenNumber) {
    match n
    case PositiveDigits(first, rest) =>
      first in NonZeroDigitMap && |rest| < 10 &&
      forall i :: 0 <= i < |rest| ==> rest[i] in DigitMap
    case TenThroughTwelve(word) => word in TenThroughTwelveMap
  }

  function PositiveNum(n: SpokenNumber): (r: nat)
    requires Recognised(n)
    ensures r >= 1
    ensures n.PositiveDigits? ==> r == DigitsValue([NonZeroDigitMap[n.first]] + DigitValues(n.rest))
    ensures n.PositiveDigits? ==> Pow10(|n.rest|) <= r < Pow10(|n.rest| + 1)
    ensures n.TenThroughTwelve? ==> 10 <= r <= 12
    ensures n == TenThroughTwelve("ten") ==> r == 10
    ensures n == TenThroughTwelve("eleven") ==> r == 11
    ensures n == TenThroughTwelve("twelve") ==> r == 12
  {
    match n
    case PositiveDigits(first, rest) =>
      DigitTables();
      var ds := DigitValues(rest);
      ParseNumrepDigitCount(NonZeroDigitMap[first], ds);
      ParseNumrep(NonZeroDigitMap[first], ds)
    case TenThroughTwelve(word) =>
      TenThroughTwelveMap[word]
  }

  /** `positive_index`: the spoken one-based number as a zero-based index. */
  function PositiveIndex(n: SpokenNumber): (r: int)
    requires Recognised(n)
    ensures 0 <= r && r == PositiveNum(n) - 1
  {
    PositiveNum(n) - 1
  }
}
