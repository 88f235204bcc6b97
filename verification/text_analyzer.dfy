/**
 * src/components/TextAnalyzer.tsx: the result editor. Its state (`input`,
 * `result`, `loading`, `copied`) is a class; what the handlers compute — the
 * placeholder result, the edited result, the tab-separated copy text and the
 * enable rule of the analyse button — are functions.
 */
module TextAnalyzer {
  import opened Wrappers
  import opened Types
  import JsText

  /** The value the placeholder analysis gives every field. */
  const SampleValue := "Sample value"

  /**
   * `structure.reduce((acc, field) => ({ ...acc, [field.name]: 'Sample value' }), {})`:
   * exactly the schema's names as keys, each with the sample value.
   */
  function MockFields(structure: seq<Field>): (m: map<string, Value>)
    ensures forall f :: f in structure ==> f.name in m
    ensures forall k :: k in m ==> exists f :: f in structure && f.name == k
    ensures forall k :: k in m ==> m[k] == Str(SampleValue)
  {
    if structure == [] then map[]
    else
      var init := structure[..|structure| - 1];
      var last := structure[|structure| - 1];
      assert forall f :: f in init ==> f in structure;
      assert structure == init + [last];
      MockFields(init)[last.name := Str(SampleValue)]
  }

  /** The placeholder analysis: the mock fields and the input text as memo. */
  function MockResult(structure: seq<Field>, input: string): (r: AnalysisResult)
    ensures r.memo == input
    ensures forall f :: f in structure ==> f.name in r.fields && r.fields[f.name] == Str(SampleValue)
    ensures forall k :: k in r.fields ==> exists f :: f in structure && f.name == k
  {
    AnalysisResult(MockFields(structure), input)
  }

  /**
   * updateFieldValue on a present result: `fieldName` now holds the typed text,
   * as a string whatever the field's declared type; every other key and the memo
   * are kept.
   */
  function WithFieldValue(r: AnalysisResult, fieldName: string, value: string): (r': AnalysisResult)
    ensures r'.memo == r.memo
    ensures fieldName in r'.fields && r'.fields[fieldName] == Str(value)
    ensures r'.fields.Keys == r.fields.Keys + {fieldName}
    ensures forall k :: k in r.fields && k != fieldName ==> r'.fields[k] == r.fields[k]
  {
    r.(fields := r.fields[fieldName := Str(value)])
  }

  /** How `Array.prototype.join` writes one looked-up value: a missing key or null is empty. */
  function SegmentText(v: Option<Value>): (s: string)
    ensures v.None? || v == Some(Null) ==> s == ""
    ensures v.Some? && v.value.Str? ==> s == v.value.s
  {
    match v
    case None => ""
    case Some(Null) => ""
    case Some(Str(s)) => s
    case Some(Num(n)) => JsText.IntString(n)
    case Some(Bool(b)) => if b then "true" else "false"
  }

  /** `result.fields[name]`: the value under an own key, or `undefined` for a missing one. */
  function Lookup(fields: map<string, Value>, name: string): (v: Option<Value>)
    ensures v.Some? <==> name in fields
    ensures v.Some? ==> v.value == fields[name]
  {
    if name in fields then Some(fields[name]) else None
  }

  /** `structure.map(field => result.fields[field.name])`, each written as `join` writes it. */
  function Segments(structure: seq<Field>, fields: map<string, Value>): (segs: seq<string>)
    ensures |segs| == |structure|
    ensures forall i :: 0 <= i < |structure| ==> segs[i] == SegmentText(Lookup(fields, structure[i].name))
  {
    if structure == [] then []
    else [SegmentText(Lookup(fields, structure[0].name))] + Segments(structure[1..], fields)
  }

  /**
   * The text `copyToClipboard` writes: the values in schema order, joined by tabs,
   * so that with tab-free values it holds one tab fewer than there are fields.
   */
  function CopyText(structure: seq<Field>, r: AnalysisResult): (text: string)
    ensures structure == [] ==> text == ""
    ensures structure != [] && TabFree(r.fields) ==> JsText.Count(text, '\t') == |structure| - 1
  {
    // Both branches give the same join; the first only brings in the lemmas behind the tab count.
    if TabFree(r.fields) then
      SegmentsTabFree(structure, r.fields);
      JsText.JoinSeparatorCount(Segments(structure, r.fields), '\t');
      JsText.Join(Segments(structure, r.fields), '\t')
    else JsText.Join(Segments(structure, r.fields), '\t')
  }

  /** No string value of the result holds a tab. */
  predicate TabFree(fields: map<string, Value>)
  {
    forall k :: k in fields && fields[k].Str? ==> '\t' !in fields[k].s
  }

  lemma SegmentsTabFree(structure: seq<Field>, fields: map<string, Value>)
    requires TabFree(fields)
    ensures forall i :: 0 <= i < |structure| ==> '\t' !in Segments(structure, fields)[i]
  {
    forall i | 0 <= i < |structure| ensures '\t' !in Segments(structure, fields)[i] {
      var v := Lookup(fields, structure[i].name);
      if v.Some? && v.value.Num? {
        var t := JsText.IntString(v.value.n);
        assert forall j :: 0 <= j < |t| ==> t[j] != '\t';
      }
    }
  }

  /**
   * Splitting the copy text on tabs gives back, field by field in schema order,
   * each value as written (empty for a missing or null value).
   */
  lemma CopyTextSplits(structure: seq<Field>, r: AnalysisResult)
    requires structure != [] && TabFree(r.fields)
    ensures var cells := JsText.Split(CopyText(structure, r), '\t');
      |cells| == |structure| &&
      forall i :: 0 <= i < |structure| ==> cells[i] == SegmentText(Lookup(r.fields, structure[i].name))
  {
    SegmentsTabFree(structure, r.fields);
    JsText.SplitJoin(Segments(structure, r.fields), '\t');
  }

  /** Three fields whose values are two strings and a number copy as the three texts between two tabs. */
  lemma CopyTextOfThree(n1: string, n2: string, n3: string, v1: string, v2: string, amount: int, memo: string)
    requires n1 != n2 && n1 != n3 && n2 != n3
    ensures CopyText(
      [Field(n1, StringType, None), Field(n2, DateType, None), Field(n3, NumberType, None)],
      AnalysisResult(map[n1 := Str(v1), n2 := Str(v2), n3 := Num(amount)], memo))
      == v1 + "\t" + v2 + "\t" + JsText.IntString(amount)
  {
    var structure := [Field(n1, StringType, None), Field(n2, DateType, None), Field(n3, NumberType, None)];
    var fields := map[n1 := Str(v1), n2 := Str(v2), n3 := Num(amount)];
    var segs := Segments(structure, fields);
    assert segs == [v1, v2, JsText.IntString(amount)];
    JoinThree(v1, v2, JsText.IntString(amount));
  }

  /**
   * The example of the component's test: a title, a date and the number 1000.
   * The two string values are parameters pinned by the precondition, which keeps
   * the verifier from evaluating the whole copy text on literals.
   */
  lemma CopyTextExample(title: string, date: string)
    requires title == "テストタイトル" && date == "2024-03-28"
    ensures CopyText(
      [Field("title", StringType, None), Field("date", DateType, None), Field("amount", NumberType, None)],
      AnalysisResult(map["title" := Str(title), "date" := Str(date), "amount" := Num(1000)], "テストメモ"))
      == "テストタイトル\t2024-03-28\t1000"
  {
    DecimalThousand();
    CopyTextOfThree("title", "date", "amount", title, date, 1000, "テストメモ");
  }

  lemma DecimalThousand()
    ensures JsText.IntString(1000) == "1000"
  {
    assert JsText.NatString(1) == "1";
    assert JsText.NatString(10) == "10";
    assert JsText.NatString(100) == "100";
  }

  lemma JoinThree(a: string, b: string, c: string)
    ensures JsText.Join([a, b, c], '\t') == a + "\t" + b + "\t" + c
  {
    assert [a, b, c][1..] == [b, c] && [b, c][1..] == [c];
    assert JsText.Join([b, c], '\t') == b + ['\t'] + c;
    assert JsText.Join([a, b, c], '\t') == a + ['\t'] + (b + ['\t'] + c);
  }

  /** `disabled={loading || !input.trim()}`, negated: the analyse button is enabled. */
  function AnalyzeEnabled(loading: bool, input: string): (enabled: bool)
    ensures enabled <==> !loading && exists i :: 0 <= i < |input| && !JsText.IsWhiteSpace(input[i])
  {
    !(loading || JsText.Trim(input) == "")
  }

  /** The component's state; `structure` is the prop it is rendered with. */
  class Analyzer {
    const structure: seq<Field>
    var input: string
    var result: Option<AnalysisResult>
    var loading: bool
    var copied: bool

    constructor(structure: seq<Field>)
      ensures this.structure == structure
      ensures input == "" && result == None && !loading && !copied
    {
      this.structure := structure;
      input := "";
      result := None;
      loading := false;
      copied := false;
    }

    /** Whether the analyse button can be pressed now: not loading, and some input that is not white space. */
    function CanAnalyze(): (enabled: bool)
      reads this
      ensures enabled <==> !loading && exists i :: 0 <= i < |input| && !JsText.IsWhiteSpace(input[i])
    {
      AnalyzeEnabled(loading, input)
    }

    /** The textarea's onChange. */
    method SetInput(text: string)
      modifies this`input
      ensures input == text
    {
      input := text;
    }

    /**
     * analyzeText: `loading` is raised for the call and lowered in `finally`;
     * the result becomes the placeholder result for the current input.
     */
    method AnalyzeText()
      modifies this`result, this`loading
      ensures result == Some(MockResult(structure, input))
      ensures !loading
    {
      loading := true;
      var mock := MockResult(structure, input);
      result := Some(mock);
      loading := false;
    }

    /** updateFieldValue: nothing without a result; else that one key is overwritten. */
    method UpdateFieldValue(fieldName: string, value: string)
      modifies this`result
      ensures old(result).None? ==> result == None
      ensures old(result).Some? ==> result == Some(WithFieldValue(old(result).value, fieldName, value))
    {
      if result.None? {
        return;
      }
      result := Some(WithFieldValue(result.value, fieldName, value));
    }

    /**
     * copyToClipboard: without a result nothing is written; otherwise the copy
     * text is handed to the clipboard, and `copied` is set when the clipboard
     * accepts it (`accepted` false is a rejected `writeText`).
     */
    method CopyToClipboard(accepted: bool) returns (written: Option<string>)
      modifies this`copied
      ensures result.None? ==> written == None && copied == old(copied)
      ensures result.Some? ==> written == Some(CopyText(structure, result.value))
      ensures result.Some? ==> copied == (accepted || old(copied))
    {
      if result.None? {
        return None;
      }
      var fieldValues := CopyText(structure, result.value);
      written := Some(fieldValues);
      if accepted {
        copied := true;
      }
    }
  }

  /** A fresh component cannot analyse, its input being empty (test 'disables analyze button when input is empty'). */
  lemma DisabledOnEmptyInput(loading: bool)
    ensures !AnalyzeEnabled(loading, "")
  {
  }
}
