/** The configurable dialog (asker/dialog.go): the element and option records,
    the checks `SetDialogElements` runs on configured elements, and the
    built-in default elements. */
module Dialogs {
  import opened Results
  import opened Text

  datatype DialogOption = DialogOption(Label: string, Value: string)

  datatype DialogElement = DialogElement(
    Type: string,
    Subtype: string,
    Label: string,
    Name: string,
    Optional: bool,
    Hint: string,
    Placeholder: string,
    Value: string,
    MinLength: int,
    MaxLength: int,
    Options: seq<DialogOption>)

  datatype Dialog = Dialog(
    CallbackID: string,
    Title: string,
    SubmitLabel: string,
    Elements: seq<DialogElement>)

  /** The longest label, in UTF-8 bytes, an element or an option may have. */
  const MaxLabelBytes: nat := 24

  /** An element with only a type, a label, a name and a placeholder set. */
  function Element(typ: string, caption: string, name: string, placeholder: string): DialogElement {
    DialogElement(typ, "", caption, name, false, "", placeholder, "", 0, 0, [])
  }

  // ---------------------------------------------------------------------------
  // What a valid element is

  predicate KnownType(t: string) {
    t == "text" || t == "textarea" || t == "select"
  }

  ghost predicate ValidOption(o: DialogOption) {
    o.Label != "" && o.Value != "" && Utf8Length(o.Label) <= MaxLabelBytes
  }

  /** A named element of a known type with a non-empty label of at most 24
      bytes; a select's options must each be valid, and a select may have no
      options at all. */
  ghost predicate ValidElement(e: DialogElement) {
    && e.Name != ""
    && KnownType(e.Type)
    && e.Label != ""
    && Utf8Length(e.Label) <= MaxLabelBytes
    && (e.Type == "select" ==> ValidOptions(e.Options))
  }

  ghost predicate ValidOptions(opts: seq<DialogOption>) {
    forall k :: 0 <= k < |opts| ==> ValidOption(opts[k])
  }

  // ---------------------------------------------------------------------------
  // The checks, in the order the source runs them

  /** Which check failed, with what the error text mentions. */
  datatype Fault =
    | NoName
    | NoType(name: string)
    | BadType(name: string, typ: string)
    | NoLabel(name: string)
    | LongLabel(name: string)
    | IncompleteOption(name: string)
    | LongOptionLabel(name: string, optionLabel: string)

  const NoNameText: string := "Element does not have required `name` field, check configuration"
  const ElementPrefix: string := "Element `"
  const NoTypeSuffix: string := "` does not have required `type` field, check configuration"
  const BadTypeInfix: string := "` has an invalid `type` field ("
  const BadTypeSuffix: string := " is not text, textarea, or select)"
  const NoLabelSuffix: string := "` does not have required `label` field, check configuration"
  const LongLabelSuffix: string := "`' label is over 24 characters, check configuration"
  const IncompleteOptionSuffix: string := "` options require both label and value! Check configuration"
  const OptionLabelInfix: string := "` option label `"
  const LongOptionLabelSuffix: string := "` is over 24 characters, check configuration"

  /** The error text the source returns for each failed check. Every text but
      the one for a missing name names the element; a bad type's text also
      names the type, and a long option label's text the label. */
  function Message(f: Fault): (m: string)
    ensures !f.NoName? ==> IsInfix(f.name, m)
    ensures f.BadType? ==> IsInfix(f.typ, m)
    ensures f.LongOptionLabel? ==> IsInfix(f.optionLabel, m)
  {
    match f
    case NoName => NoNameText
    case NoType(n) => InfixOfConcat(ElementPrefix, n, NoTypeSuffix); ElementPrefix + n + NoTypeSuffix
    case BadType(n, t) =>
      var m := ElementPrefix + n + BadTypeInfix + t + BadTypeSuffix;
      assert InfixAt(n, m, |ElementPrefix|);
      assert InfixAt(t, m, |ElementPrefix + n + BadTypeInfix|);
      m
    case NoLabel(n) => InfixOfConcat(ElementPrefix, n, NoLabelSuffix); ElementPrefix + n + NoLabelSuffix
    case LongLabel(n) => InfixOfConcat(ElementPrefix, n, LongLabelSuffix); ElementPrefix + n + LongLabelSuffix
    case IncompleteOption(n) =>
      InfixOfConcat(ElementPrefix, n, IncompleteOptionSuffix); ElementPrefix + n + IncompleteOptionSuffix
    case LongOptionLabel(n, l) =>
      var m := ElementPrefix + n + OptionLabelInfix + l + LongOptionLabelSuffix;
      assert InfixAt(n, m, |ElementPrefix|);
      assert InfixAt(l, m, |ElementPrefix + n + OptionLabelInfix|);
      m
  }

  function OptionError(name: string, o: DialogOption): (err: Option<Fault>)
    ensures err.None? <==> ValidOption(o)
  {
    if o.Label == "" || o.Value == "" then Some(IncompleteOption(name))
    else if Utf8Length(o.Label) > MaxLabelBytes then Some(LongOptionLabel(name, o.Label))
    else None
  }

  /** The first option error of a select, if any. */
  function OptionsError(name: string, opts: seq<DialogOption>): (err: Option<Fault>)
    ensures err.None? <==> ValidOptions(opts)
    decreases |opts|
  {
    if opts == [] then None
    else if OptionError(name, opts[0]).Some? then OptionError(name, opts[0])
    else
      var rest := OptionsError(name, opts[1..]);
      assert forall k :: 1 <= k < |opts| ==> opts[k] == opts[1..][k - 1];
      rest
  }

  /** The first failing check on one element: name, type present, type known,
      label present, label length, then the options of a select. */
  function ElementError(e: DialogElement): (err: Option<Fault>)
    ensures err.None? <==> ValidElement(e)
  {
    if e.Name == "" then Some(NoName)
    else if e.Type == "" then Some(NoType(e.Name))
    else if !KnownType(e.Type) then Some(BadType(e.Name, e.Type))
    else if e.Label == "" then Some(NoLabel(e.Name))
    else if Utf8Length(e.Label) > MaxLabelBytes then Some(LongLabel(e.Name))
    else if e.Type == "select" then OptionsError(e.Name, e.Options)
    else None
  }

  /** The error of the first failing element, if any; there is none exactly
      when every element is valid. */
  function FirstElementError(elems: seq<DialogElement>): (err: Option<Fault>)
    ensures err.None? <==> forall i :: 0 <= i < |elems| ==> ValidElement(elems[i])
    decreases |elems|
  {
    if elems == [] then None
    else if ElementError(elems[0]).Some? then ElementError(elems[0])
    else
      var rest := FirstElementError(elems[1..]);
      assert forall i :: 1 <= i < |elems| ==> elems[i] == elems[1..][i - 1];
      rest
  }

  /** The error reported is the first failing check of the first failing
      element: every element before it is valid. */
  lemma {:induction false} FirstElementErrorIsFirst(elems: seq<DialogElement>)
    requires FirstElementError(elems).Some?
    ensures exists i :: 0 <= i < |elems| && FirstElementError(elems) == ElementError(elems[i])
                        && (forall j :: 0 <= j < i ==> ValidElement(elems[j]))
    decreases |elems|
  {
    if ElementError(elems[0]).Some? {
      assert FirstElementError(elems) == ElementError(elems[0]);
    } else {
      var tail := elems[1..];
      FirstElementErrorIsFirst(tail);
      var i :| 0 <= i < |tail| && FirstElementError(tail) == ElementError(tail[i])
        && (forall j :: 0 <= j < i ==> ValidElement(tail[j]));
      assert FirstElementError(elems) == FirstElementError(tail);
      assert tail[i] == elems[i + 1];
      assert forall j :: 1 <= j < i + 1 ==> elems[j] == tail[j - 1];
    }
  }

  /** Skipping a prefix of elements that pass every check does not change the
      first error. */
  lemma {:induction false} FirstElementErrorSkip(elems: seq<DialogElement>, i: nat)
    requires i <= |elems|
    requires forall j :: 0 <= j < i ==> ElementError(elems[j]).None?
    ensures FirstElementError(elems) == FirstElementError(elems[i..])
    decreases i
  {
    if i > 0 {
      assert elems[1..][i - 1..] == elems[i..];
      FirstElementErrorSkip(elems[1..], i - 1);
    }
  }

  lemma {:induction false} OptionsErrorSkip(name: string, opts: seq<DialogOption>, k: nat)
    requires k <= |opts|
    requires forall m :: 0 <= m < k ==> OptionError(name, opts[m]).None?
    ensures OptionsError(name, opts) == OptionsError(name, opts[k..])
    decreases k
  {
    if k > 0 {
      assert opts[1..][k - 1..] == opts[k..];
      OptionsErrorSkip(name, opts[1..], k - 1);
    }
  }

  /** The validation loop of `SetDialogElements`: it walks the elements, and
      the options of each select, and stops at the first failing check. The
      source's further check that a select has fewer than zero options can
      never fire and has no counterpart here. */
  method CheckElements(elems: seq<DialogElement>) returns (err: Option<Fault>)
    ensures err == FirstElementError(elems)
  {
    var i := 0;
    while i < |elems|
      invariant 0 <= i <= |elems|
      invariant forall j :: 0 <= j < i ==> ElementError(elems[j]).None?
    {
      var e := elems[i];
      FirstElementErrorSkip(elems, i);
      assert elems[i..][0] == e;
      if e.Name == "" {
        return Some(NoName);
      }
      if e.Type == "" {
        return Some(NoType(e.Name));
      }
      if e.Type != "text" && e.Type != "textarea" && e.Type != "select" {
        return Some(BadType(e.Name, e.Type));
      }
      if e.Label == "" {
        return Some(NoLabel(e.Name));
      }
      if Utf8Length(e.Label) > MaxLabelBytes {
        return Some(LongLabel(e.Name));
      }
      if e.Type == "select" {
        var k := 0;
        while k < |e.Options|
          invariant 0 <= k <= |e.Options|
          invariant forall m :: 0 <= m < k ==> OptionError(e.Name, e.Options[m]).None?
        {
          var o := e.Options[k];
          OptionsErrorSkip(e.Name, e.Options, k);
          assert e.Options[k..][0] == o;
          if o.Label == "" || o.Value == "" {
            return Some(IncompleteOption(e.Name));
          }
          if Utf8Length(o.Label) > MaxLabelBytes {
            return Some(LongOptionLabel(e.Name, o.Label));
          }
          k := k + 1;
        }
        OptionsErrorSkip(e.Name, e.Options, k);
      }
      i := i + 1;
    }
    FirstElementErrorSkip(elems, i);
    return None;
  }

  // ---------------------------------------------------------------------------
  // The built-in elements

  function BlockingOptions(): seq<DialogOption> {
    [DialogOption("No", "no"), DialogOption("Yes", "yes"), DialogOption("I'm about to page!", "911")]
  }

  function SummaryElement(): DialogElement {
    Element("text", "The one liner...", "summary", "")
  }

  function DescriptionElement(): DialogElement {
    Element("textarea", "The details", "description", "What have you tried so far, stack traces, etc.")
  }

  function BlockingElement(): DialogElement {
    Element("select", "Blocking?", "blocking", "Are you actively blocked and need someone now?")
      .(Value := "no", Options := BlockingOptions())
  }

  /** The summary, description and blocking elements used when no elements
      are configured. */
  function DefaultElements(): (r: seq<DialogElement>)
    ensures |r| == 3 && r[0].Name == "summary" && r[1].Name == "description" && r[2].Name == "blocking"
    ensures r[0].Type == "text" && r[1].Type == "textarea" && r[2].Type == "select"
  {
    [SummaryElement(), DescriptionElement(), BlockingElement()]
  }

  /** The default elements are summary, description and blocking, and
      blocking defaults to "no" with the options no, yes and 911. */
  lemma DefaultElementsShape()
    ensures |DefaultElements()| == 3
    ensures DefaultElements()[0].Name == "summary" && DefaultElements()[1].Name == "description"
      && DefaultElements()[2].Name == "blocking"
    ensures DefaultElements()[2].Type == "select" && DefaultElements()[2].Value == "no"
    ensures |DefaultElements()[2].Options| == 3 && DefaultElements()[2].Options[0].Value == "no"
      && DefaultElements()[2].Options[1].Value == "yes" && DefaultElements()[2].Options[2].Value == "911"
  {
  }

  /** An ASCII label of at most 24 characters fits in 24 bytes. */
  lemma AsciiLabelFits(s: string)
    requires |s| <= MaxLabelBytes
    requires forall i :: 0 <= i < |s| ==> s[i] as int < 0x80
    ensures Utf8Length(s) <= MaxLabelBytes
  {
    AsciiUtf8Length(s);
  }

  /** A text or textarea element with a name and a short ASCII label passes
      every check. */
  lemma PlainElementValid(e: DialogElement)
    requires e.Name != "" && (e.Type == "text" || e.Type == "textarea") && e.Label != ""
    requires |e.Label| <= MaxLabelBytes && forall i :: 0 <= i < |e.Label| ==> e.Label[i] as int < 0x80
    ensures ValidElement(e)
  {
    AsciiLabelFits(e.Label);
  }

  /** An option with a value and a short ASCII label passes every check. */
  lemma AsciiOptionValid(o: DialogOption)
    requires o.Label != "" && o.Value != ""
    requires |o.Label| <= MaxLabelBytes && forall i :: 0 <= i < |o.Label| ==> o.Label[i] as int < 0x80
    ensures ValidOption(o)
  {
    AsciiLabelFits(o.Label);
  }

  /** A select with a name, a short ASCII label and valid options passes every
      check. */
  lemma SelectElementValid(e: DialogElement)
    requires e.Name != "" && e.Type == "select" && e.Label != ""
    requires |e.Label| <= MaxLabelBytes && forall i :: 0 <= i < |e.Label| ==> e.Label[i] as int < 0x80
    requires ValidOptions(e.Options)
    ensures ValidElement(e)
  {
    AsciiLabelFits(e.Label);
  }

  lemma NoOptionValid()
    ensures ValidOption(BlockingOptions()[0])
  {
    AsciiOptionValid(BlockingOptions()[0]);
  }

  lemma YesOptionValid()
    ensures ValidOption(BlockingOptions()[1])
  {
    AsciiOptionValid(BlockingOptions()[1]);
  }

  /** The longest default option label, "I'm about to page!", is 18 bytes. */
  lemma PageOptionValid()
    ensures Utf8Length(BlockingOptions()[2].Label) == 18
    ensures ValidOption(BlockingOptions()[2])
  {
    var o := BlockingOptions()[2];
    AsciiUtf8Length(o.Label);
    AsciiOptionValid(o);
  }

  lemma SummaryElementValid()
    ensures ValidElement(SummaryElement())
  {
    PlainElementValid(SummaryElement());
  }

  lemma DescriptionElementValid()
    ensures ValidElement(DescriptionElement())
  {
    PlainElementValid(DescriptionElement());
  }

  lemma ThreeOptionsValid(opts: seq<DialogOption>)
    requires |opts| == 3 && ValidOption(opts[0]) && ValidOption(opts[1]) && ValidOption(opts[2])
    ensures ValidOptions(opts)
  {
  }

  lemma BlockingOptionsValid()
    ensures ValidOptions(BlockingOptions())
  {
    NoOptionValid();
    YesOptionValid();
    PageOptionValid();
    ThreeOptionsValid(BlockingOptions());
  }

  lemma BlockingElementValid()
    ensures ValidElement(BlockingElement())
  {
    BlockingOptionsValid();
    SelectElementValid(BlockingElement());
  }

  /** Every default element passes the validator. */
  lemma DefaultElementsValid()
    ensures FirstElementError(DefaultElements()) == None
  {
    SummaryElementValid();
    DescriptionElementValid();
    BlockingElementValid();
  }

  /** A select with no options is judged on its name and label alone: the
      source's check for a select without options compares the count with
      zero by `< 0`, which never holds. */
  lemma EmptySelectAccepted(e: DialogElement)
    requires e.Type == "select" && e.Options == []
    ensures ElementError(e).None? <==> (e.Name != "" && e.Label != "" && Utf8Length(e.Label) <= MaxLabelBytes)
  {
  }
}
