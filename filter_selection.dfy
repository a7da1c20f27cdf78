/** filter/filter_selection.py: the console dialogue that marks filters and their options
    as selected. The attribute list is an array of records whose `selected` flags the
    dialogue sets in place; a filter the handler collects is named by its index in that
    array, standing for the shared dictionary object. Console input is the sequence of
    lines still to be read; reading past its end is EOFError. */
module FilterSelection {
  import opened Common

  /** An option dictionary of a filter: `id`, `name` and the `selected` flag. */
  datatype FilterOption = FilterOption(id: string, name: string, selected: bool)

  /** A filter dictionary of the attributes reply. A missing `values` key and an empty
      list are read alike everywhere, so both are the empty sequence; `hidden` is the
      truth value of `tags.hidden`. */
  datatype FilterAttr = FilterAttr(id: string, name: string, values: seq<FilterOption>, hidden: bool, selected: bool)

  // ---- console tokens ----

  /** The ASCII characters `str.strip` removes. */
  predicate IsSpace(c: char)
  {
    (9 <= c as int <= 13) || (28 <= c as int <= 32)
  }

  /** The end of the run of blanks that starts at `i`. */
  function BlanksEnd(s: string, i: nat): (a: nat)
    requires i <= |s|
    ensures i <= a <= |s|
    ensures forall k :: i <= k < a ==> IsSpace(s[k])
    ensures a == |s| || !IsSpace(s[a])
    decreases |s| - i
  {
    if i < |s| && IsSpace(s[i]) then BlanksEnd(s, i + 1) else i
  }

  /** The start of the run of blanks that ends at `j`, not going below `a`. */
  function BlanksStart(s: string, a: nat, j: nat): (b: nat)
    requires a <= j <= |s|
    ensures a <= b <= j
    ensures forall k :: b <= k < j ==> IsSpace(s[k])
    ensures b == a || !IsSpace(s[b - 1])
  {
    if a < j && IsSpace(s[j - 1]) then BlanksStart(s, a, j - 1) else j
  }

  /** Every character of `s` before position `a` is blank. */
  predicate BlankBefore(s: string, a: nat)
    requires a <= |s|
  {
    forall i :: 0 <= i < a ==> IsSpace(s[i])
  }

  /** Every character of `s` from position `b` on is blank. */
  predicate BlankFrom(s: string, b: nat)
    requires b <= |s|
  {
    forall i :: b <= i < |s| ==> IsSpace(s[i])
  }

  /** `s.strip()`: the middle of `s` left once the blanks at both ends are removed; no
      blank is left at either end and nothing else is removed. */
  function Strip(s: string): (r: string)
    ensures |r| <= |s|
    ensures r == [] || (!IsSpace(r[0]) && !IsSpace(r[|r| - 1]))
    ensures exists a: nat, b: nat :: a <= b <= |s| && r == s[a..b] && BlankBefore(s, a) && BlankFrom(s, b)
  {
    var a := BlanksEnd(s, 0);
    var b := BlanksStart(s, a, |s|);
    assert BlankBefore(s, a) && BlankFrom(s, b);
    s[a..b]
  }

  /** `BlanksEnd` stops at the first character that is not blank. */
  lemma {:induction false} BlanksEndAt(s: string, i: nat, a: nat)
    requires i <= a <= |s|
    requires forall k :: i <= k < a ==> IsSpace(s[k])
    requires a == |s| || !IsSpace(s[a])
    ensures BlanksEnd(s, i) == a
    decreases a - i
  {
    if i < a {
      BlanksEndAt(s, i + 1, a);
    }
  }

  /** `BlanksStart` stops after the last character that is not blank. */
  lemma {:induction false} BlanksStartAt(s: string, a: nat, b: nat, j: nat)
    requires a <= b <= j <= |s|
    requires forall k :: b <= k < j ==> IsSpace(s[k])
    requires b == a || !IsSpace(s[b - 1])
    ensures BlanksStart(s, a, j) == b
    decreases j - b
  {
    if b < j {
      BlanksStartAt(s, a, b, j - 1);
    }
  }

  function LowerChar(c: char): char
  {
    if 'A' <= c <= 'Z' then (c as int + 32) as char else c
  }

  /** `s.lower()` on ASCII letters: each upper-case letter becomes its lower-case
      letter, 32 code points on; every other character stays; no upper-case letter is
      left. */
  function Lower(s: string): (r: string)
    ensures |r| == |s|
    ensures forall i :: 0 <= i < |s| && 'A' <= s[i] <= 'Z' ==> r[i] as int == s[i] as int + 32
    ensures forall i :: 0 <= i < |s| && !('A' <= s[i] <= 'Z') ==> r[i] == s[i]
    ensures forall i :: 0 <= i < |r| ==> !('A' <= r[i] <= 'Z')
  {
    seq(|s|, i requires 0 <= i < |s| => LowerChar(s[i]))
  }

  /** Lowering twice is lowering once. */
  lemma LowerIdempotent(s: string)
    ensures Lower(Lower(s)) == Lower(s)
  {
  }

  /** `input(...).strip().lower()`. */
  function Normalize(line: string): string
  {
    Lower(Strip(line))
  }

  /** The line typed to quit a menu, in any case and with any surrounding blanks. */
  predicate IsQuit(line: string)
  {
    Normalize(line) == "q"
  }

  predicate AllDigits(s: string)
  {
    forall i :: 0 <= i < |s| ==> '0' <= s[i] <= '9'
  }

  function DigitsValue(s: string): nat
    requires AllDigits(s)
  {
    if s == [] then 0
    else
      assert '0' <= s[|s| - 1] <= '9';
      10 * DigitsValue(s[..|s| - 1]) + (s[|s| - 1] as int - '0' as int)
  }

  /** `int(s)` on a stripped string: an optional sign and at least one decimal digit;
      anything else raises ValueError, here None. */
  function ParseInt(s: string): (r: Option<int>)
    ensures r.Some? ==> s != []
  {
    if s != [] && (s[0] == '+' || s[0] == '-') then
      var digits := s[1..];
      if digits != [] && AllDigits(digits) then
        var v: int := DigitsValue(digits);
        Some(if s[0] == '-' then -v else v)
      else None
    else if s != [] && AllDigits(s) then Some(DigitsValue(s))
    else None
  }

  /** The decimal numeral of a menu index as it is printed. */
  function Decimal(n: nat): (r: string)
    ensures r != [] && AllDigits(r)
  {
    var d := ['0' + (n % 10) as char];
    if n < 10 then d else Decimal(n / 10) + d
  }

  lemma {:induction false} DecimalValue(n: nat)
    ensures DigitsValue(Decimal(n)) == n
  {
    var s := Decimal(n);
    if n >= 10 {
      DecimalValue(n / 10);
      assert s[..|s| - 1] == Decimal(n / 10);
    }
  }

  /** Blanks around a text with no blank at either end are all `Strip` removes. */
  lemma StripBlanks(pre: string, t: string, post: string)
    requires forall i :: 0 <= i < |pre| ==> IsSpace(pre[i])
    requires forall i :: 0 <= i < |post| ==> IsSpace(post[i])
    requires t != [] && !IsSpace(t[0]) && !IsSpace(t[|t| - 1])
    ensures Strip(pre + t + post) == t
  {
    var s := pre + t + post;
    var a, b := |pre|, |pre| + |t|;
    assert s[a..b] == t;
    assert !IsSpace(s[a]) && !IsSpace(s[b - 1]);
    SpacesOfConcat(pre, t, post);
    BlanksEndAt(s, 0, a);
    BlanksStartAt(s, a, b, |s|);
  }

  lemma SpacesOfConcat(pre: string, t: string, post: string)
    requires forall i :: 0 <= i < |pre| ==> IsSpace(pre[i])
    requires forall i :: 0 <= i < |post| ==> IsSpace(post[i])
    ensures var s := pre + t + post;
      && (forall k :: 0 <= k < |pre| ==> IsSpace(s[k]))
      && (forall k :: |pre| + |t| <= k < |s| ==> IsSpace(s[k]))
  {
    var s := pre + t + post;
    forall k | |pre| + |t| <= k < |s|
      ensures IsSpace(s[k])
    {
      assert s[k] == post[k - |pre| - |t|];
    }
  }

  lemma LowerDigits(s: string)
    requires AllDigits(s)
    ensures Lower(s) == s
  {
  }

  /** A printed index parses back to itself. */
  lemma ParseDecimal(n: nat)
    ensures ParseInt(Decimal(n)) == Some(n)
  {
    var s := Decimal(n);
    assert '0' <= s[0] <= '9';
    DecimalValue(n);
  }

  /** Typing back a printed index, with any blanks around it, selects that index. */
  lemma PrintedIndexParses(n: nat, pre: string, post: string)
    requires forall i :: 0 <= i < |pre| ==> IsSpace(pre[i])
    requires forall i :: 0 <= i < |post| ==> IsSpace(post[i])
    ensures ParseInt(Normalize(pre + Decimal(n) + post)) == Some(n)
  {
    var s := Decimal(n);
    assert Normalize(pre + s + post) == s by {
      assert '0' <= s[0] <= '9' && '0' <= s[|s| - 1] <= '9';
      StripBlanks(pre, s, post);
      LowerDigits(s);
    }
    ParseDecimal(n);
  }

  // ---- the menus as functions of the attributes and the input ----

  /** A filter `show_filters` lists: it has values and is not hidden. */
  predicate IsAvailable(f: FilterAttr)
  {
    |f.values| > 0 && !f.hidden
  }

  /** `available_filters`: the indices of the listed filters, in their original order. */
  function Available(attrs: seq<FilterAttr>): (r: seq<nat>)
    ensures forall a :: 0 <= a < |r| ==> r[a] < |attrs| && IsAvailable(attrs[r[a]])
    ensures forall k :: k in r ==> k < |attrs| && IsAvailable(attrs[k])
    ensures forall k :: 0 <= k < |attrs| && IsAvailable(attrs[k]) ==> k in r
    ensures forall a, b :: 0 <= a < b < |r| ==> r[a] < r[b]
  {
    if attrs == [] then []
    else
      var prefix := Available(attrs[..|attrs| - 1]);
      if IsAvailable(attrs[|attrs| - 1]) then prefix + [|attrs| - 1] else prefix
  }

  /** Marking the option at a 1-based position: a position out of range, or no number
      at all, changes nothing; marking an option again changes nothing. */
  function MarkAt(values: seq<FilterOption>, n: Option<int>): (r: seq<FilterOption>)
    ensures |r| == |values|
  {
    if n.Some? && 1 <= n.value <= |values| then
      values[n.value - 1 := values[n.value - 1].(selected := true)]
    else values
  }

  /** Marking an option that is already marked changes nothing. */
  lemma MarkAgain(values: seq<FilterOption>, k: nat)
    requires k < |values| && values[k].selected
    ensures values[k := values[k].(selected := true)] == values
  {
    assert values[k].(selected := true) == values[k];
  }

  /** Writing a filter's own options back changes nothing. */
  lemma KeepValues(attrs: seq<FilterAttr>, fi: nat)
    requires fi < |attrs|
    ensures attrs[fi := attrs[fi].(values := attrs[fi].values)] == attrs
  {
    assert attrs[fi].(values := attrs[fi].values) == attrs[fi];
  }

  /** The effect of one option line. */
  function SelectOption(values: seq<FilterOption>, line: string): (r: seq<FilterOption>)
    ensures |r| == |values|
  {
    MarkAt(values, ParseInt(Normalize(line)))
  }

  /** `g` is `f` with possibly more flags set: nothing else differs and nothing is unmarked. */
  predicate OptionGrows(f: FilterOption, g: FilterOption)
  {
    g.id == f.id && g.name == f.name && (f.selected ==> g.selected)
  }

  predicate OptionsGrow(a: seq<FilterOption>, b: seq<FilterOption>)
  {
    |a| == |b| && forall j :: 0 <= j < |a| ==> OptionGrows(a[j], b[j])
  }

  predicate FilterGrows(f: FilterAttr, g: FilterAttr)
  {
    g.id == f.id && g.name == f.name && g.hidden == f.hidden && (f.selected ==> g.selected)
    && OptionsGrow(f.values, g.values)
  }

  predicate AttrsGrow(a: seq<FilterAttr>, b: seq<FilterAttr>)
  {
    |a| == |b| && forall k :: 0 <= k < |a| ==> FilterGrows(a[k], b[k])
  }

  lemma MarkAtGrows(values: seq<FilterOption>, n: Option<int>)
    ensures OptionsGrow(values, MarkAt(values, n))
  {
  }

  lemma AttrsGrowTransitive(a: seq<FilterAttr>, b: seq<FilterAttr>, c: seq<FilterAttr>)
    requires AttrsGrow(a, b) && AttrsGrow(b, c)
    ensures AttrsGrow(a, c)
  {
  }

  /** `rest` is what is left of `input` after reading some lines. */
  predicate Suffix(rest: seq<string>, input: seq<string>)
  {
    |rest| <= |input| && rest == input[|input| - |rest|..]
  }

  lemma SuffixTail(input: seq<string>)
    requires input != []
    ensures Suffix(input[1..], input)
  {
  }

  lemma SuffixTransitive(a: seq<string>, b: seq<string>, c: seq<string>)
    requires Suffix(a, b) && Suffix(b, c)
    ensures Suffix(a, c)
  {
    assert a == c[|c| - |b|..][|b| - |a|..];
  }

  /** The options loop of `choose_options` ends with the values it left and the lines it
      did not read, or with None for the rest when the input ran out (EOFError). */
  datatype OptionsOutcome = OptionsOutcome(values: seq<FilterOption>, rest: Option<seq<string>>)

  /** `choose_options` on a filter with these values: lines are read until `q`; a filter
      without values returns at once without reading. */
  function OptionSession(values: seq<FilterOption>, input: seq<string>): (r: OptionsOutcome)
    ensures |r.values| == |values|
    ensures r.rest.Some? ==> |r.rest.value| <= |input|
    ensures values == [] ==> r == OptionsOutcome(values, Some(input))
    decreases |input|
  {
    if values == [] then OptionsOutcome(values, Some(input))
    else if input == [] then OptionsOutcome(values, None)
    else if IsQuit(input[0]) then OptionsOutcome(values, Some(input[1..]))
    else OptionSession(SelectOption(values, input[0]), input[1..])
  }

  /** The options dialogue only marks options, and only consumes input. */
  lemma {:induction false} OptionSessionGrows(values: seq<FilterOption>, input: seq<string>)
    ensures OptionsGrow(values, OptionSession(values, input).values)
    ensures OptionSession(values, input).rest.Some? ==> Suffix(OptionSession(values, input).rest.value, input)
    decreases |input|
  {
    if values != [] && input != [] && !IsQuit(input[0]) {
      var next := SelectOption(values, input[0]);
      OptionSessionGrows(next, input[1..]);
      MarkAtGrows(values, ParseInt(Normalize(input[0])));
      var o := OptionSession(values, input);
      if o.rest.Some? {
        SuffixTail(input);
        SuffixTransitive(o.rest.value, input[1..], input);
      }
    }
  }

  lemma ReplaceTwice(s: seq<FilterAttr>, i: nat, a: FilterAttr, b: FilterAttr)
    requires i < |s|
    ensures s[i := a][i := b] == s[i := b]
  {
  }

  /** `show_filters` ends with the attributes it left, the filter it chose if any, and
      the lines it did not read (None when the input ran out). */
  datatype ShowOutcome = ShowOutcome(attrs: seq<FilterAttr>, picked: Option<nat>, rest: Option<seq<string>>)

  /** `show_filters`: one line picks a listed filter by its 1-based position; `q` or a
      line that is not a valid position picks nothing and changes nothing. */
  function ShowFiltersSpec(attrs: seq<FilterAttr>, input: seq<string>): (r: ShowOutcome)
    ensures |r.attrs| == |attrs|
    ensures r.rest.Some? ==> |input| > 0 && |r.rest.value| < |input|
    ensures r.rest.None? ==> r.picked.None?
    ensures r.picked.Some? ==> r.picked.value < |attrs|
  {
    if input == [] then ShowOutcome(attrs, None, None)
    else if IsQuit(input[0]) then ShowOutcome(attrs, None, Some(input[1..]))
    else PickFilter(attrs, ParseInt(Normalize(input[0])), input[1..])
  }

  /** The listed filter at 1-based position `n`, if any, is marked and its options
      dialogue runs on the following lines; it is returned unless the input runs out. */
  function PickFilter(attrs: seq<FilterAttr>, n: Option<int>, rest: seq<string>): (r: ShowOutcome)
    ensures |r.attrs| == |attrs|
    ensures r.rest.Some? ==> |r.rest.value| <= |rest|
    ensures r.rest.None? ==> r.picked.None?
    ensures r.picked.Some? ==> r.picked.value < |attrs|
  {
    var avail := Available(attrs);
    if n.Some? && 1 <= n.value <= |avail| then
      var k := avail[n.value - 1];
      var o := OptionSession(attrs[k].values, rest);
      var marked := attrs[k := attrs[k].(selected := true, values := o.values)];
      if o.rest.None? then ShowOutcome(marked, None, None) else ShowOutcome(marked, Some(k), o.rest)
    else ShowOutcome(attrs, None, Some(rest))
  }

  /** Marking the filter at `k` and growing its options grows the attributes. */
  lemma MarkFilterGrows(attrs: seq<FilterAttr>, k: nat, values: seq<FilterOption>)
    requires k < |attrs| && OptionsGrow(attrs[k].values, values)
    ensures AttrsGrow(attrs, attrs[k := attrs[k].(selected := true, values := values)])
  {
  }

  /** `q`, in any case and with blanks, returns None and changes nothing. */
  lemma ShowFiltersQuit(attrs: seq<FilterAttr>, line: string, rest: seq<string>)
    requires IsQuit(line)
    ensures ShowFiltersSpec(attrs, [line] + rest) == ShowOutcome(attrs, None, Some(rest))
  {
    assert ([line] + rest)[1..] == rest;
  }

  /** A line that is not a listed position returns None and changes nothing. */
  lemma ShowFiltersInvalid(attrs: seq<FilterAttr>, line: string, rest: seq<string>)
    requires !IsQuit(line)
    requires var n := ParseInt(Normalize(line)); n.None? || n.value < 1 || n.value > |Available(attrs)|
    ensures ShowFiltersSpec(attrs, [line] + rest) == ShowOutcome(attrs, None, Some(rest))
  {
    assert ([line] + rest)[1..] == rest;
  }

  /** A listed position `i` marks the i-th listed filter, runs its options dialogue on
      the following lines, and returns that filter unless the input runs out. */
  lemma ShowFiltersPicks(attrs: seq<FilterAttr>, line: string, rest: seq<string>)
    requires !IsQuit(line)
    requires var n := ParseInt(Normalize(line)); n.Some? && 1 <= n.value <= |Available(attrs)|
    ensures var k := Available(attrs)[ParseInt(Normalize(line)).value - 1];
      var o := OptionSession(attrs[k].values, rest);
      && IsAvailable(attrs[k])
      && ShowFiltersSpec(attrs, [line] + rest)
         == ShowOutcome(attrs[k := attrs[k].(selected := true, values := o.values)],
                        if o.rest.Some? then Some(k) else None, o.rest)
  {
    ShowFiltersStep(attrs, line, rest);
    PickFilterAt(attrs, ParseInt(Normalize(line)), rest);
  }

  /** A line other than `q` is read as a position in the list. */
  lemma ShowFiltersStep(attrs: seq<FilterAttr>, line: string, rest: seq<string>)
    requires !IsQuit(line)
    ensures ShowFiltersSpec(attrs, [line] + rest) == PickFilter(attrs, ParseInt(Normalize(line)), rest)
  {
    assert ([line] + rest)[1..] == rest;
  }

  /** `PickFilter` at a listed position. */
  lemma PickFilterAt(attrs: seq<FilterAttr>, n: Option<int>, rest: seq<string>)
    requires n.Some? && 1 <= n.value <= |Available(attrs)|
    ensures var k := Available(attrs)[n.value - 1];
      var o := OptionSession(attrs[k].values, rest);
      && IsAvailable(attrs[k])
      && PickFilter(attrs, n, rest)
         == ShowOutcome(attrs[k := attrs[k].(selected := true, values := o.values)],
                        if o.rest.Some? then Some(k) else None, o.rest)
  {
    var k := Available(attrs)[n.value - 1];
    var o := OptionSession(attrs[k].values, rest);
    var marked := attrs[k := attrs[k].(selected := true, values := o.values)];
    if o.rest.None? {
      assert PickFilter(attrs, n, rest) == ShowOutcome(marked, None, None);
    } else {
      assert PickFilter(attrs, n, rest) == ShowOutcome(marked, Some(k), o.rest);
    }
  }

  /** Picking never unmarks anything or changes anything but flags, only consumes input,
      and a filter it returns was listed and is now marked. */
  lemma PickFilterGrows(attrs: seq<FilterAttr>, n: Option<int>, rest: seq<string>)
    ensures AttrsGrow(attrs, PickFilter(attrs, n, rest).attrs)
    ensures var r := PickFilter(attrs, n, rest);
      r.rest.Some? ==> Suffix(r.rest.value, rest)
    ensures var r := PickFilter(attrs, n, rest);
      r.picked.Some? ==> IsAvailable(attrs[r.picked.value]) && r.attrs[r.picked.value].selected
  {
    var avail := Available(attrs);
    if n.Some? && 1 <= n.value <= |avail| {
      var k := avail[n.value - 1];
      OptionSessionGrows(attrs[k].values, rest);
      MarkFilterGrows(attrs, k, OptionSession(attrs[k].values, rest).values);
    }
  }

  /** The same for a whole `show_filters` call. */
  lemma ShowFiltersGrows(attrs: seq<FilterAttr>, input: seq<string>)
    ensures AttrsGrow(attrs, ShowFiltersSpec(attrs, input).attrs)
    ensures var r := ShowFiltersSpec(attrs, input);
      r.rest.Some? ==> Suffix(r.rest.value, input)
    ensures var r := ShowFiltersSpec(attrs, input);
      r.picked.Some? ==> IsAvailable(attrs[r.picked.value]) && r.attrs[r.picked.value].selected
  {
    if input != [] {
      SuffixTail(input);
      if !IsQuit(input[0]) {
        var n := ParseInt(Normalize(input[0]));
        var r := PickFilter(attrs, n, input[1..]);
        PickFilterGrows(attrs, n, input[1..]);
        if r.rest.Some? {
          SuffixTransitive(r.rest.value, input[1..], input);
        }
      }
    }
  }

  /** The loop of `choose`: the attributes it left, the filters it collected in order,
      and the lines left (None when the input ran out). */
  datatype ChooseOutcome = ChooseOutcome(attrs: seq<FilterAttr>, picked: seq<nat>, rest: Option<seq<string>>)

  /** `show_filters` is called until it picks nothing; every filter it picks is collected. */
  function ChooseLoop(attrs: seq<FilterAttr>, input: seq<string>): (r: ChooseOutcome)
    decreases |input|
  {
    var s := ShowFiltersSpec(attrs, input);
    if s.rest.None? then ChooseOutcome(s.attrs, [], None)
    else if s.picked.None? then ChooseOutcome(s.attrs, [], s.rest)
    else
      var more := ChooseLoop(s.attrs, s.rest.value);
      ChooseOutcome(more.attrs, [s.picked.value] + more.picked, more.rest)
  }

  /** The dialogue never unmarks a filter or an option, reorders or drops anything, and
      only consumes input. */
  lemma {:induction false} ChooseLoopGrows(attrs: seq<FilterAttr>, input: seq<string>)
    ensures AttrsGrow(attrs, ChooseLoop(attrs, input).attrs)
    ensures ChooseLoop(attrs, input).rest.Some? ==> Suffix(ChooseLoop(attrs, input).rest.value, input)
    decreases |input|
  {
    var s := ShowFiltersSpec(attrs, input);
    ShowFiltersGrows(attrs, input);
    if s.rest.Some? && s.picked.Some? {
      var more := ChooseLoop(s.attrs, s.rest.value);
      ChooseLoopGrows(s.attrs, s.rest.value);
      AttrsGrowTransitive(attrs, s.attrs, more.attrs);
      if more.rest.Some? {
        SuffixTransitive(more.rest.value, s.rest.value, input);
      }
    }
  }

  /** One pass of the loop of `choose` that picks a filter. */
  lemma ChooseLoopUnfold(attrs: seq<FilterAttr>, input: seq<string>)
    requires ShowFiltersSpec(attrs, input).rest.Some? && ShowFiltersSpec(attrs, input).picked.Some?
    ensures var s := ShowFiltersSpec(attrs, input);
      var o := ChooseLoop(attrs, input); var more := ChooseLoop(s.attrs, s.rest.value);
      && o.attrs == more.attrs && o.rest == more.rest && o.picked == [s.picked.value] + more.picked
  {
  }

  lemma AppendRegroups(total: seq<nat>, done: seq<nat>, p: nat, more: seq<nat>)
    requires total == done + ([p] + more)
    ensures total == (done + [p]) + more
  {
    assert done + ([p] + more) == (done + [p]) + more;
  }

  /** Each of `picked` is a listed filter of `attrs` and is marked in `final`. */
  predicate PicksMarked(attrs: seq<FilterAttr>, picked: seq<nat>, final: seq<FilterAttr>)
  {
    forall p :: p in picked ==> p < |attrs| && p < |final| && IsAvailable(attrs[p]) && final[p].selected
  }

  /** Every filter collected was listed (it has values and is not hidden) and is marked
      selected when the dialogue ends. */
  lemma {:induction false} PickedAreMarked(attrs: seq<FilterAttr>, input: seq<string>)
    ensures PicksMarked(attrs, ChooseLoop(attrs, input).picked, ChooseLoop(attrs, input).attrs)
    decreases |input|
  {
    var s := ShowFiltersSpec(attrs, input);
    if s.rest.Some? && s.picked.Some? {
      var more := ChooseLoop(s.attrs, s.rest.value);
      assert ChooseLoop(attrs, input) == ChooseOutcome(more.attrs, [s.picked.value] + more.picked, more.rest);
      ShowFiltersGrows(attrs, input);
      PickedAreMarked(s.attrs, s.rest.value);
      ChooseLoopGrows(s.attrs, s.rest.value);
      var k := s.picked.value;
      assert FilterGrows(s.attrs[k], more.attrs[k]);
      forall p | p in more.picked
        ensures p < |attrs| && IsAvailable(attrs[p])
      {
        assert FilterGrows(attrs[p], s.attrs[p]);
      }
    }
  }

  // ---- the handler ----

  /** A `SelectionHandler`: the filters collected so far. */
  class SelectionHandler {
    var selection: seq<nat>

    constructor ()
      ensures selection == []
    {
      selection := [];
    }

    /** One option line of `choose_options`, already stripped and lowered: a valid
        position marks that option of the filter at `fi`, unless it is already marked. */
    method MarkOption(attrs: array<FilterAttr>, fi: nat, sel: string)
      requires fi < attrs.Length
      modifies attrs
      ensures attrs[..] == old(attrs[..])[fi := old(attrs[fi]).(values := MarkAt(old(attrs[fi].values), ParseInt(sel)))]
    {
      var n := ParseInt(sel);
      var values := attrs[fi].values;
      ghost var before := attrs[..];
      if n.Some? && 1 <= n.value <= |values| {
        var k := n.value - 1;
        if !values[k].selected {
          attrs[fi] := attrs[fi].(values := values[k := values[k].(selected := true)]);
        } else {
          // "Option is already selected."
          MarkAgain(values, k);
          KeepValues(before, fi);
        }
      } else {
        // "Invalid input. Please enter a valid option index."
        KeepValues(before, fi);
      }
    }

    /** `choose_options(filter)`: the options loop on the filter at `fi`, which it returns;
        the input running out raises EOFError, with the marks made so far kept. */
    method ChooseOptions(attrs: array<FilterAttr>, fi: nat, input: seq<string>)
        returns (r: Result<nat>, rest: seq<string>)
      requires fi < attrs.Length
      modifies attrs
      ensures var o := OptionSession(old(attrs[fi].values), input);
        && attrs[..] == old(attrs[..])[fi := old(attrs[fi]).(values := o.values)]
        && (o.rest.None? ==> r == Err(EofError) && rest == [])
        && (o.rest.Some? ==> r == Ok(fi) && rest == o.rest.value)
    {
      rest := input;
      while true
        invariant OptionSession(attrs[fi].values, rest) == OptionSession(old(attrs[fi].values), input)
        invariant attrs[..] == old(attrs[..])[fi := old(attrs[fi]).(values := attrs[fi].values)]
        decreases |rest|
      {
        if |attrs[fi].values| == 0 {
          // "No options available."
          return Ok(fi), rest;
        }
        if rest == [] {
          return Err(EofError), [];
        }
        var line := rest[0];
        ghost var lines := rest;
        ghost var values := attrs[fi].values;
        rest := rest[1..];
        var sel := Normalize(line);
        if sel == "q" {
          return Ok(fi), rest;
        }
        MarkOption(attrs, fi, sel);
        assert SelectOption(values, line) == MarkAt(values, ParseInt(sel));
        assert OptionSession(values, lines) == OptionSession(attrs[fi].values, rest);
        ReplaceTwice(old(attrs[..]), fi, old(attrs[fi]).(values := values), old(attrs[fi]).(values := attrs[fi].values));
      }
    }

    /** `show_filters(attrs)`: reads one line; a listed position marks that filter and
        runs its options dialogue; `q` or an invalid line gives None. */
    method ShowFilters(attrs: array<FilterAttr>, input: seq<string>)
        returns (r: Result<Option<nat>>, rest: seq<string>)
      modifies attrs
      ensures var o := ShowFiltersSpec(old(attrs[..]), input);
        && attrs[..] == o.attrs
        && (o.rest.None? ==> r == Err(EofError) && rest == [])
        && (o.rest.Some? ==> r == Ok(o.picked) && rest == o.rest.value)
    {
      var available := Available(attrs[..]);
      if input == [] {
        return Err(EofError), [];
      }
      var line := input[0];
      rest := input[1..];
      if IsQuit(line) {
        return Ok(None), rest;
      }
      var n := ParseInt(Normalize(line));
      assert ShowFiltersSpec(attrs[..], input) == PickFilter(attrs[..], n, rest);
      if n.Some? && 1 <= n.value <= |available| {
        var k := available[n.value - 1];
        attrs[k] := attrs[k].(selected := true);
        var chosen;
        chosen, rest := ChooseOptions(attrs, k, rest);
        if chosen.Err? {
          return Err(chosen.error), [];
        }
        return Ok(Some(chosen.value)), rest;
      }
      // "Invalid input. Please enter a valid filter index."
      r := Ok(None);
    }

    /** `choose(attrs)`: `[]` for an empty list; otherwise every filter `show_filters`
        picks is appended to `selection` until it picks nothing, and `selection` is
        returned. Any exception, here the input running out, gives None, while what was
        appended before it stays appended. */
    method Choose(attrs: array<FilterAttr>, input: seq<string>) returns (r: Option<seq<nat>>, rest: seq<string>)
      modifies this, attrs
      ensures attrs.Length == 0 ==> r == Some([]) && rest == input && selection == old(selection)
      ensures attrs.Length > 0 ==>
        var o := ChooseLoop(old(attrs[..]), input);
        && attrs[..] == o.attrs
        && selection == old(selection) + o.picked
        && (o.rest.None? ==> r == None && rest == [])
        && (o.rest.Some? ==> r == Some(selection) && rest == o.rest.value)
    {
      if attrs.Length == 0 {
        // "No filters available."
        return Some([]), input;
      }
      ghost var whole := ChooseLoop(attrs[..], input);
      ghost var start := selection;
      rest := input;
      while true
        invariant ChooseLoop(attrs[..], rest).attrs == whole.attrs
        invariant ChooseLoop(attrs[..], rest).rest == whole.rest
        invariant start + whole.picked == selection + ChooseLoop(attrs[..], rest).picked
        decreases |rest|
      {
        ghost var before := attrs[..];
        ghost var lines := rest;
        var picked;
        picked, rest := ShowFilters(attrs, rest);
        ghost var s := ShowFiltersSpec(before, lines);
        assert attrs[..] == s.attrs;
        if picked.Err? {
          return None, [];
        }
        if picked.value.None? {
          return Some(selection), rest;
        }
        // a filter dictionary is never empty, so the one returned is always truthy
        ghost var more := ChooseLoop(attrs[..], rest);
        ChooseLoopUnfold(before, lines);
        AppendRegroups(start + whole.picked, selection, picked.value.value, more.picked);
        selection := selection + [picked.value.value];
      }
    }
  }
}
