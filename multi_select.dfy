/**
 * The generic multi-select control: a selection is the array of chosen option values,
 * replaced as a whole on every click.
 */
module MultiSelect {

  /** One entry of the `options` prop. */
  datatype SelectOption = SelectOption(value: string, labelText: string)

  /** The `placeholder` prop's default. */
  const DefaultPlaceholder := "Select options..."

  /** `selection.filter(v => v !== x)`: every occurrence of `x` dropped, the rest kept in order. */
  function Without(selection: seq<string>, x: string): (r: seq<string>)
    ensures x !in r
    ensures forall y :: y != x ==> (y in r <==> y in selection)
    ensures |r| <= |selection|
  {
    if selection == [] then []
    else if selection[0] == x then Without(selection[1..], x)
    else [selection[0]] + Without(selection[1..], x)
  }

  /**
   * `toggleOption`: a value already selected is removed (every occurrence of it), an absent
   * one is appended at the end; no other value changes membership.
   */
  function Toggle(selection: seq<string>, x: string): (r: seq<string>)
    ensures x in selection ==> x !in r
    ensures x !in selection ==> r == selection + [x]
    ensures x in r <==> x !in selection
    ensures forall y :: y != x ==> (y in r <==> y in selection)
  {
    if x in selection then Without(selection, x) else selection + [x]
  }

  lemma {:induction false} WithoutAbsent(selection: seq<string>, x: string)
    requires x !in selection
    ensures Without(selection, x) == selection
  {
    if selection != [] {
      WithoutAbsent(selection[1..], x);
    }
  }

  lemma {:induction false} WithoutAppend(selection: seq<string>, x: string, y: string)
    ensures Without(selection + [y], x) == Without(selection, x) + (if y == x then [] else [y])
  {
    if selection == [] {
      assert selection + [y] == [y];
    } else {
      assert (selection + [y])[1..] == selection[1..] + [y];
      WithoutAppend(selection[1..], x, y);
    }
  }

  lemma {:induction false} WithoutIdempotent(selection: seq<string>, x: string)
    ensures Without(Without(selection, x), x) == Without(selection, x)
  {
    WithoutAbsent(Without(selection, x), x);
  }

  /**
   * A toggle keeps the relative order (and the multiplicity) of every other selected value:
   * erasing the toggled value from the old and the new selection gives the same sequence.
   */
  lemma ToggleKeepsOthersInOrder(selection: seq<string>, x: string)
    ensures Without(Toggle(selection, x), x) == Without(selection, x)
  {
    if x in selection {
      WithoutIdempotent(selection, x);
    } else {
      WithoutAppend(selection, x, x);
    }
  }

  /** Toggling an absent value twice gives back the original selection. */
  lemma ToggleTwiceAbsent(selection: seq<string>, x: string)
    requires x !in selection
    ensures Toggle(Toggle(selection, x), x) == selection
  {
    WithoutAppend(selection, x, x);
    WithoutAbsent(selection, x);
  }

  /**
   * Toggling a present value twice is not the identity: the value comes back once, at the end.
   */
  lemma ToggleTwicePresent(selection: seq<string>, x: string)
    requires x in selection
    ensures Toggle(Toggle(selection, x), x) == Without(selection, x) + [x]
  {
  }

  /** `selectedLabels`: the labels of the options whose value is selected, in option order. */
  function SelectedLabels(options: seq<SelectOption>, selection: seq<string>): (r: seq<string>)
    ensures |r| <= |options|
    ensures forall l :: l in r ==> exists o :: o in options && o.value in selection && o.labelText == l
    ensures forall o :: o in options && o.value in selection ==> o.labelText in r
    ensures |options| == 1 ==> r == (if options[0].value in selection then [options[0].labelText] else [])
  {
    if options == [] then []
    else
      var rest := SelectedLabels(options[1..], selection);
      assert forall o :: o in options[1..] ==> o in options;
      if options[0].value in selection then [options[0].labelText] + rest else rest
  }

  /**
   * The labels come in option order, one per selected option: the labels of two option lists
   * one after the other are those of the first followed by those of the second. With the
   * one-option case this fixes the labels, and so the count the trigger shows.
   */
  lemma {:induction false} SelectedLabelsAppend(a: seq<SelectOption>, b: seq<SelectOption>, selection: seq<string>)
    ensures SelectedLabels(a + b, selection) == SelectedLabels(a, selection) + SelectedLabels(b, selection)
  {
    if a == [] {
      assert a + b == b;
    } else {
      assert (a + b)[1..] == a[1..] + b;
      SelectedLabelsAppend(a[1..], b, selection);
    }
  }

  /**
   * The labels depend on which values are selected, not on the order they were picked in.
   */
  lemma {:induction false} SelectedLabelsIgnoreSelectionOrder(options: seq<SelectOption>, a: seq<string>, b: seq<string>)
    requires forall v :: v in a <==> v in b
    ensures SelectedLabels(options, a) == SelectedLabels(options, b)
  {
    if options != [] {
      SelectedLabelsIgnoreSelectionOrder(options[1..], a, b);
    }
  }

  /** One decimal digit. */
  function DigitChar(d: nat): char
    requires d < 10
  {
    (('0' as int) + d) as char
  }

  /** The value of a digit character; `DigitChar`'s inverse. */
  function DigitValue(c: char): int {
    (c as int) - ('0' as int)
  }

  /** A `nat` written in decimal, as a template literal renders it. */
  function DecimalString(n: nat): (s: string)
    ensures |s| >= 1
    ensures forall i :: 0 <= i < |s| ==> '0' <= s[i] <= '9'
    ensures s[0] == '0' ==> n == 0
    decreases n
  {
    if n < 10 then [DigitChar(n)] else DecimalString(n / 10) + [DigitChar(n % 10)]
  }

  /** Reads a string of decimal digits back. */
  function ParseDecimal(s: string): int
    decreases |s|
  {
    if s == [] then 0 else ParseDecimal(s[..|s| - 1]) * 10 + DigitValue(s[|s| - 1])
  }

  lemma {:induction false} DecimalRoundTrip(n: nat)
    ensures ParseDecimal(DecimalString(n)) == n
    decreases n
  {
    if n >= 10 {
      var s := DecimalString(n);
      assert s[..|s| - 1] == DecimalString(n / 10);
      DecimalRoundTrip(n / 10);
    }
  }

  /** The suffix of the trigger text when more than one option is selected. */
  const SelectedSuffix := " selected"

  /**
   * The trigger text: the placeholder when nothing is selected, the one label when one is,
   * and "N selected" otherwise.
   */
  function TriggerText(labels: seq<string>, placeholder: string): (text: string)
  {
    if |labels| == 0 then placeholder
    else if |labels| == 1 then labels[0]
    else DecimalString(|labels|) + SelectedSuffix
  }

  /**
   * For two or more labels the text states the count: stripping the suffix and reading the
   * digits gives back the number of selected labels.
   */
  lemma TriggerTextShowsCount(labels: seq<string>, placeholder: string)
    requires |labels| >= 2
    ensures var text := TriggerText(labels, placeholder);
      |text| > |SelectedSuffix|
      && text[|text| - |SelectedSuffix|..] == SelectedSuffix
      && ParseDecimal(text[..|text| - |SelectedSuffix|]) == |labels|
  {
    var text := TriggerText(labels, placeholder);
    assert text[..|text| - |SelectedSuffix|] == DecimalString(|labels|);
    DecimalRoundTrip(|labels|);
  }

  /** Two different counts of two or more selected labels never show the same text. */
  lemma TriggerTextDistinguishesCounts(a: seq<string>, b: seq<string>, placeholder: string)
    requires |a| >= 2 && |b| >= 2 && |a| != |b|
    ensures TriggerText(a, placeholder) != TriggerText(b, placeholder)
  {
    TriggerTextShowsCount(a, placeholder);
    TriggerTextShowsCount(b, placeholder);
  }

  /** With no more than one label, the text is the placeholder or that label. */
  lemma TriggerTextFewLabels(labels: seq<string>, placeholder: string)
    requires |labels| <= 1
    ensures |labels| == 0 ==> TriggerText(labels, placeholder) == placeholder
    ensures |labels| == 1 ==> TriggerText(labels, placeholder) == labels[0]
  {
  }
}
