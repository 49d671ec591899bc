/// The `trace_linear_block_decoder` layer: `print_decoder_state` writes
/// one line per symbol of the decoding matrix: the symbol's index in a
/// field of width three, its state (`?` missing, `C` seen, that is coded,
/// `U` uncoded), and then every coefficient value of its row, each
/// followed by a space.
module TraceLinearBlockDecoder {

  /// The decimal digit for `d`.
  function Digit(d: nat): char
    requires d < 10
  {
    "0123456789"[d]
  }

  /// The value of a decimal digit character.
  function DigitValue(c: char): nat
  {
    if '0' <= c <= '9' then (c - '0') as nat else 0
  }

  /// `out << n` for an unsigned integer: its decimal digits, no leading
  /// zeros.
  function Decimal(n: nat): (r: string)
    ensures 0 < |r|
    ensures forall k :: 0 <= k < |r| ==> '0' <= r[k] <= '9'
  {
    if n < 10 then [Digit(n)] else Decimal(n / 10) + [Digit(n % 10)]
  }

  /// Reading decimal digits back as a number.
  function ParseDecimal(s: string): nat
  {
    if s == [] then 0 else ParseDecimal(s[..|s| - 1]) * 10 + DigitValue(s[|s| - 1])
  }

  /// The printed decimal reads back as the number printed.
  lemma {:induction false} DecimalRoundTrip(n: nat)
    ensures ParseDecimal(Decimal(n)) == n
  {
    if n >= 10 {
      DecimalRoundTrip(n / 10);
      var s := Decimal(n);
      assert s[..|s| - 1] == Decimal(n / 10);
    }
  }

  /// `std::setfill(' ') << std::setw(width) << s`: `s` right-aligned in
  /// a field of `width` characters, padded with spaces on the left.
  function PadLeft(s: string, width: nat): (r: string)
    ensures |r| == if |s| < width then width else |s|
    ensures r[|r| - |s|..] == s
    ensures forall k :: 0 <= k < |r| - |s| ==> r[k] == ' '
  {
    if |s| < width then seq(width - |s|, _ => ' ') + s else s
  }

  /// The state of a symbol, as the decoder reports it.
  datatype SymbolState = Missing | Seen | Uncoded

  /// The marker of each state.
  function Marker(state: SymbolState): char
  {
    match state
    case Missing => '?'
    case Seen => 'C'
    case Uncoded => 'U'
  }

  /// The state the layer prints for symbol `i`: missing first, then
  /// seen; any other symbol must be uncoded.
  function StateOf(missing: bool, seen: bool, uncoded: bool): (s: SymbolState)
    requires missing || seen || uncoded
    ensures s == Missing <==> missing
    ensures s == Seen <==> !missing && seen
    ensures s == Uncoded <==> !missing && !seen
  {
    if missing then Missing else if seen then Seen else Uncoded
  }

  /// Every coefficient value followed by one space.
  function CoefficientText(values: seq<nat>): string
  {
    if values == [] then ""
    else CoefficientText(values[..|values| - 1]) + Decimal(values[|values| - 1]) + " "
  }

  /// The text between the index and the coefficients.
  function MarkerText(state: SymbolState): string
  {
    [' ', Marker(state), ':', ' ', ' ']
  }

  /// The line of symbol `i`.
  function Row(i: nat, state: SymbolState, values: seq<nat>): string
  {
    PadLeft(Decimal(i), 3) + MarkerText(state) + CoefficientText(values) + "\n"
  }

  /// The printed state of every symbol.
  function States(missing: seq<bool>, seen: seq<bool>, uncoded: seq<bool>): (r: seq<SymbolState>)
    requires |missing| == |seen| == |uncoded|
    requires forall i :: 0 <= i < |missing| ==> missing[i] || seen[i] || uncoded[i]
    ensures |r| == |missing|
    ensures forall i :: 0 <= i < |missing| ==> r[i] == StateOf(missing[i], seen[i], uncoded[i])
  {
    seq(|missing|, i requires 0 <= i < |missing| => StateOf(missing[i], seen[i], uncoded[i]))
  }

  /// The lines of the first `n` symbols.
  function Rows(n: nat, states: seq<SymbolState>, coefficients: seq<seq<nat>>): string
    requires n <= |states| && n <= |coefficients|
  {
    if n == 0 then "" else Rows(n - 1, states, coefficients) + Row(n - 1, states[n - 1], coefficients[n - 1])
  }

  /// Newlines in a text.
  function Lines(s: string): nat
  {
    if s == [] then 0 else Lines(s[..|s| - 1]) + (if s[|s| - 1] == '\n' then 1 else 0)
  }

  lemma {:induction false} LinesAppend(a: string, b: string)
    ensures Lines(a + b) == Lines(a) + Lines(b)
  {
    if b != [] {
      assert (a + b)[..|a + b| - 1] == a + b[..|b| - 1];
      LinesAppend(a, b[..|b| - 1]);
    } else {
      assert a + b == a;
    }
  }

  lemma {:induction false} LinesNone(s: string)
    requires forall k :: 0 <= k < |s| ==> s[k] != '\n'
    ensures Lines(s) == 0
  {
    if s != [] {
      LinesNone(s[..|s| - 1]);
    }
  }

  lemma {:induction false} CoefficientTextHasNoNewline(values: seq<nat>)
    ensures forall k :: 0 <= k < |CoefficientText(values)| ==> CoefficientText(values)[k] != '\n'
  {
    if values != [] {
      CoefficientTextHasNoNewline(values[..|values| - 1]);
    }
  }

  /// A row is exactly one line.
  lemma RowIsOneLine(i: nat, state: SymbolState, values: seq<nat>)
    ensures Lines(Row(i, state, values)) == 1
  {
    var pad := PadLeft(Decimal(i), 3);
    var head := pad + MarkerText(state) + CoefficientText(values);
    CoefficientTextHasNoNewline(values);
    forall k | 0 <= k < |head|
      ensures head[k] != '\n'
    {
      if k >= |pad| + 5 {
        assert head[k] == CoefficientText(values)[k - |pad| - 5];
      } else if k >= |pad| {
        assert head[k] == MarkerText(state)[k - |pad|];
      }
    }
    LinesNone(head);
    LinesAppend(head, "\n");
  }

  /// A row begins with the padded index and then the marker text.
  lemma RowBegins(i: nat, state: SymbolState, values: seq<nat>)
    ensures var r := Row(i, state, values);
      var pad := PadLeft(Decimal(i), 3);
      |pad| + 5 < |r| && r[..|pad|] == pad && r[|pad|..|pad| + 5] == MarkerText(state)
  {
    var pad := PadLeft(Decimal(i), 3);
    var head := pad + MarkerText(state);
    assert Row(i, state, values) == head + (CoefficientText(values) + "\n");
    assert head[..|pad|] == pad;
    assert head[|pad|..] == MarkerText(state);
  }

  /// The padded index reads back as the index.
  lemma IndexReadsBack(i: nat)
    ensures ParseDecimal(PadLeft(Decimal(i), 3)[|PadLeft(Decimal(i), 3)| - |Decimal(i)|..]) == i
  {
    DecimalRoundTrip(i);
  }

  /// The state text has exactly one line per symbol.
  lemma {:induction false} OneLinePerSymbol(n: nat, states: seq<SymbolState>, coefficients: seq<seq<nat>>)
    requires n <= |states| && n <= |coefficients|
    ensures Lines(Rows(n, states, coefficients)) == n
  {
    if n > 0 {
      OneLinePerSymbol(n - 1, states, coefficients);
      RowIsOneLine(n - 1, states[n - 1], coefficients[n - 1]);
      LinesAppend(Rows(n - 1, states, coefficients), Row(n - 1, states[n - 1], coefficients[n - 1]));
    }
  }

  /// The inner loop of `print_decoder_state`: each value and a space.
  method PrintCoefficients(values: seq<nat>) returns (text: string)
    ensures text == CoefficientText(values)
  {
    text := "";
    var j := 0;
    while j < |values|
      invariant 0 <= j <= |values|
      invariant text == CoefficientText(values[..j])
    {
      assert values[..j + 1][..j] == values[..j];
      text := text + Decimal(values[j]) + " ";
      j := j + 1;
    }
    assert values[..|values|] == values;
  }

  /// `print_decoder_state`, given for every symbol of the block whether
  /// the decoder has it missing, seen or uncoded, and its row of
  /// coefficient values. The source asserts that a symbol neither missing
  /// nor seen is uncoded.
  method PrintDecoderState(missing: seq<bool>, seen: seq<bool>, uncoded: seq<bool>,
                           coefficients: seq<seq<nat>>) returns (out: string)
    requires |missing| == |seen| == |uncoded| == |coefficients|
    requires forall i :: 0 <= i < |missing| ==> missing[i] || seen[i] || uncoded[i]
    ensures out == Rows(|missing|, States(missing, seen, uncoded), coefficients)
    ensures Lines(out) == |missing|
  {
    ghost var states := States(missing, seen, uncoded);
    out := "";
    var i := 0;
    while i < |missing|
      invariant 0 <= i <= |missing|
      invariant out == Rows(i, states, coefficients)
    {
      var marker: string;
      if missing[i] {
        marker := " ?:  ";
      } else if seen[i] {
        marker := " C:  ";
      } else {
        marker := " U:  ";
      }
      assert marker == MarkerText(states[i]);
      var values := PrintCoefficients(coefficients[i]);
      out := out + (PadLeft(Decimal(i), 3) + marker + values + "\n");
      i := i + 1;
    }
    OneLinePerSymbol(|missing|, states, coefficients);
  }

  lemma DigitExamples()
    ensures Decimal(0) == "0" && Decimal(1) == "1" && Decimal(2) == "2"
  {
  }

  lemma ZeroRowText()
    ensures CoefficientText([0, 0, 0]) == "0 0 0 "
  {
    DigitExamples();
    assert [0][..0] == [];
    assert [0, 0][..1] == [0];
    assert [0, 0, 0][..2] == [0, 0];
  }

  lemma SeenRowText()
    ensures CoefficientText([0, 1, 1]) == "0 1 1 "
  {
    DigitExamples();
    assert [0][..0] == [];
    assert [0, 1][..1] == [0];
    assert [0, 1, 1][..2] == [0, 1];
  }

  lemma IndexExamples()
    ensures PadLeft(Decimal(0), 3) == "  0"
    ensures PadLeft(Decimal(1), 3) == "  1"
    ensures PadLeft(Decimal(2), 3) == "  2"
  {
    DigitExamples();
  }

  lemma FirstRowExample()
    ensures Row(0, Missing, [0, 0, 0]) == "  0 ?:  0 0 0 \n"
  {
    IndexExamples();
    ZeroRowText();
  }

  lemma SecondRowExample()
    ensures Row(1, Seen, [0, 1, 1]) == "  1 C:  0 1 1 \n"
  {
    IndexExamples();
    SeenRowText();
  }

  lemma ThirdRowExample()
    ensures Row(2, Missing, [0, 0, 0]) == "  2 ?:  0 0 0 \n"
  {
    IndexExamples();
    ZeroRowText();
  }

  /// Three symbols, the middle one seen with coefficients 0 1 1: the
  /// indices are padded with spaces, not zeros.
  lemma ThreeSymbolExample()
    ensures Rows(3, [Missing, Seen, Missing], [[0, 0, 0], [0, 1, 1], [0, 0, 0]]) ==
      "  0 ?:  0 0 0 \n" + "  1 C:  0 1 1 \n" + "  2 ?:  0 0 0 \n"
  {
    FirstRowExample();
    SecondRowExample();
    ThirdRowExample();
  }
}
