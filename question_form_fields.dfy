/** The `customValidator` of the question form's `testCases` field: the list
    must be non-empty and no test case may have an input or output that is
    empty once trimmed. An absent input or output is not blank. */
module QuestionFormFields {
  import opened Wrappers

  /** `ITestcase`: either side may be `undefined`. */
  datatype TestCase = TestCase(input: Option<string>, output: Option<string>)

  /** The characters `String.prototype.trim` removes: ECMAScript WhiteSpace
      (including the Unicode space separators) and LineTerminator. */
  predicate IsTrimmed(c: char) {
    var n := c as int;
    n == 0x09 || n == 0x0A || n == 0x0B || n == 0x0C || n == 0x0D || n == 0x20
    || n == 0xA0 || n == 0x1680 || (0x2000 <= n <= 0x200A)
    || n == 0x2028 || n == 0x2029 || n == 0x202F || n == 0x205F
    || n == 0x3000 || n == 0xFEFF
  }

  /** Only trimmable characters. */
  ghost predicate Blank(s: string) {
    forall i :: 0 <= i < |s| ==> IsTrimmed(s[i])
  }

  /** A trimmable first character followed by `n - 1` trimmable ones makes
      a trimmable prefix of `n`. */
  lemma BlankPrefixExtends(s: string, n: int)
    requires 1 <= n <= |s| && IsTrimmed(s[0])
    requires forall i :: 0 <= i < n - 1 ==> IsTrimmed(s[1..][i])
    ensures forall i :: 0 <= i < n ==> IsTrimmed(s[i])
  {
    forall i | 0 <= i < n ensures IsTrimmed(s[i]) {
      if i > 0 {
        assert s[i] == s[1..][i - 1];
      }
    }
  }

  /** Drop leading trimmable characters. */
  function TrimStart(s: string): (t: string)
    ensures |t| <= |s| && t == s[|s| - |t|..]
    ensures forall i :: 0 <= i < |s| - |t| ==> IsTrimmed(s[i])
    ensures t != [] ==> !IsTrimmed(t[0])
  {
    if s != [] && IsTrimmed(s[0]) then
      var t := TrimStart(s[1..]);
      BlankPrefixExtends(s, |s| - |t|);
      t
    else s
  }

  /** Drop trailing trimmable characters. */
  function TrimEnd(s: string): (t: string)
    ensures |t| <= |s| && t == s[..|t|]
    ensures forall i :: |t| <= i < |s| ==> IsTrimmed(s[i])
    ensures t != [] ==> !IsTrimmed(t[|t| - 1])
  {
    if s != [] && IsTrimmed(s[|s| - 1]) then TrimEnd(s[..|s| - 1]) else s
  }

  /** `trim`. */
  function Trim(s: string): (t: string)
    ensures t == [] <==> Blank(s)
    ensures t != [] ==> !IsTrimmed(t[0]) && !IsTrimmed(t[|t| - 1])
  {
    TrimEnd(TrimStart(s))
  }

  /** `v?.trim() !== ''`: true for an absent value. */
  predicate NotBlank(v: Option<string>) {
    v.None? || Trim(v.value) != ""
  }

  /** The test inside `every`. */
  predicate CaseValid(t: TestCase) {
    NotBlank(t.input) && NotBlank(t.output)
  }

  /** `every`, walking the list from the front. */
  predicate Every(data: seq<TestCase>) {
    data == [] || (CaseValid(data[0]) && Every(data[1..]))
  }

  /** `customValidator`. */
  predicate CustomValidator(data: seq<TestCase>) {
    |data| > 0 && Every(data)
  }

  lemma {:induction false} EveryIffAll(data: seq<TestCase>)
    ensures Every(data) <==> forall i :: 0 <= i < |data| ==> CaseValid(data[i])
  {
    if data != [] {
      EveryIffAll(data[1..]);
      assert forall i :: 1 <= i < |data| ==> data[i] == data[1..][i - 1];
    }
  }

  /** The side of a test case is present and made only of trimmable characters. */
  ghost predicate BlankSide(v: Option<string>) {
    v.Some? && Blank(v.value)
  }

  /** The validator accepts exactly the non-empty lists in which no case has
      a present, whitespace-only input or output. */
  lemma CustomValidatorIff(data: seq<TestCase>)
    ensures CustomValidator(data) <==>
      |data| > 0 && forall i :: 0 <= i < |data| ==> !BlankSide(data[i].input) && !BlankSide(data[i].output)
  {
    EveryIffAll(data);
  }

  lemma EmptyListRejected()
    ensures !CustomValidator([])
  {
  }

  /** One whitespace-only side anywhere makes the whole list invalid. */
  lemma OneBlankSideRejects(data: seq<TestCase>, k: int)
    requires 0 <= k < |data|
    requires BlankSide(data[k].input) || BlankSide(data[k].output)
    ensures !CustomValidator(data)
  {
    CustomValidatorIff(data);
  }

  /** A missing output never rejects a case: a list whose cases all lack an
      output passes exactly when it is non-empty and no input is blank. */
  lemma MissingOutputsPass(data: seq<TestCase>)
    requires forall i :: 0 <= i < |data| ==> data[i].output.None?
    ensures CustomValidator(data) <==> |data| > 0 && forall i :: 0 <= i < |data| ==> !BlankSide(data[i].input)
  {
    CustomValidatorIff(data);
  }

  /** A missing input never rejects a case: a list whose cases all lack an
      input passes exactly when it is non-empty and no output is blank. */
  lemma MissingInputsPass(data: seq<TestCase>)
    requires forall i :: 0 <= i < |data| ==> data[i].input.None?
    ensures CustomValidator(data) <==> |data| > 0 && forall i :: 0 <= i < |data| ==> !BlankSide(data[i].output)
  {
    CustomValidatorIff(data);
  }

  /** A missing side never makes an otherwise valid case invalid. */
  lemma DroppingASideKeepsValid(t: TestCase)
    requires CaseValid(t)
    ensures CaseValid(t.(input := None)) && CaseValid(t.(output := None))
  {
  }

  /** Validity does not depend on the order of the cases. */
  lemma PermutationInvariant(a: seq<TestCase>, b: seq<TestCase>)
    requires multiset(a) == multiset(b)
    ensures CustomValidator(a) <==> CustomValidator(b)
  {
    EveryIffAll(a);
    EveryIffAll(b);
    assert |a| == |multiset(a)| == |multiset(b)| == |b|;
    forall i | 0 <= i < |b| && Every(a) ensures CaseValid(b[i]) {
      assert b[i] in multiset(b);
      var j :| 0 <= j < |a| && a[j] == b[i];
    }
    forall i | 0 <= i < |a| && Every(b) ensures CaseValid(a[i]) {
      assert a[i] in multiset(a);
      var j :| 0 <= j < |b| && b[j] == a[i];
    }
  }

  /** Appending a valid case to a valid list keeps it valid. */
  lemma AppendValidCase(data: seq<TestCase>, t: TestCase)
    requires CustomValidator(data) && CaseValid(t)
    ensures CustomValidator(data + [t])
  {
    EveryIffAll(data);
    EveryIffAll(data + [t]);
  }
}
