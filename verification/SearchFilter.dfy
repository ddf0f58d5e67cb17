// Meilisearch filter fragments: how they are written, and what the search engine reads
// back from them. The writer must escape every value so that no value can end its own
// string literal.
module SearchFilter {
  import opened Wrappers
  import opened Decimal
  import opened Sequences

  // ---------- Writing ----------

  function Quoted(value: string): string {
    "\"" + Escaped(value) + "\""
  }

  function Escaped(value: string): string {
    if value == [] then []
    else (if value[0] == '"' || value[0] == '\\' then ['\\', value[0]] else [value[0]]) + Escaped(value[1..])
  }

  method Quote(value: string) returns (r: string)
    ensures r == Quoted(value)
  {
    r := "\"";
    for i := 0 to |value|
      invariant r + Escaped(value[i..]) == "\"" + Escaped(value)
    {
      assert value[i..][1..] == value[i + 1..];
      if value[i] == '"' || value[i] == '\\' {
        r := r + "\\";
      }
      r := r + [value[i]];
    }
    assert value[|value|..] == [];
    r := r + "\"";
  }

  function Eq(attr: string, value: string): string {
    attr + " = " + Quoted(value)
  }

  function Neq(attr: string, value: string): string {
    attr + " != " + Quoted(value)
  }

  function EqBool(attr: string, v: bool): string {
    attr + " = " + if v then "true" else "false"
  }

  function Gte(attr: string, n: int): string {
    attr + " >= " + Itoa(n)
  }

  function Lte(attr: string, n: int): string {
    attr + " <= " + Itoa(n)
  }

  // OR-groups, ANDed; None means no filter at all.
  type Groups = seq<seq<string>>

  function NonEmpty(groups: Groups): Groups {
    if groups == [] then []
    else (if groups[0] == [] then [] else [groups[0]]) + NonEmpty(groups[1..])
  }

  method Filter(groups: Groups) returns (r: Option<Groups>)
    ensures r == if NonEmpty(groups) == [] then None else Some(NonEmpty(groups))
  {
    var kept: Groups := [];
    for i := 0 to |groups|
      invariant kept + NonEmpty(groups[i..]) == NonEmpty(groups)
    {
      ghost var rest := NonEmpty(groups[i + 1..]);
      Rest(groups, i);
      Regroup(kept, [groups[i]], rest);
      Nothing(rest);
      if |groups[i]| > 0 {
        kept := kept + [groups[i]];
      }
    }
    Nothing(kept);
    r := if |kept| == 0 then None else Some(kept);
  }

  // ---------- Reading ----------

  datatype Condition =
    | Is(attr: string, value: string)
    | IsNot(attr: string, value: string)
    | Flag(attr: string, v: bool)
    | AtLeast(attr: string, n: int)
    | AtMost(attr: string, n: int)

  // The body of a string literal up to its first unescaped quote, which must end the text.
  function Unquoted(s: string): Option<string> {
    if s == [] then None
    else if s[0] == '"' then (if |s| == 1 then Some([]) else None)
    else if s[0] == '\\' then (if |s| >= 2 then Prefixed(s[1], Unquoted(s[2..])) else None)
    else Prefixed(s[0], Unquoted(s[1..]))
  }

  function Prefixed(c: char, rest: Option<string>): Option<string> {
    match rest
    case None => None
    case Some(r) => Some([c] + r)
  }

  // The position of the first space, or the length.
  function FirstSpace(s: string): (i: nat)
    ensures i <= |s| && (i < |s| ==> s[i] == ' ') && forall j :: 0 <= j < i ==> s[j] != ' '
  {
    if s == [] || s[0] == ' ' then 0 else 1 + FirstSpace(s[1..])
  }

  // attribute, space, operator, space, operand.
  function Read(fragment: string): Option<Condition> {
    var i := FirstSpace(fragment);
    if i == |fragment| then None
    else
      var attr, rest := fragment[..i], fragment[i + 1..];
      var j := FirstSpace(rest);
      if j == |rest| then None else ReadOperation(attr, rest[..j], rest[j + 1..])
  }

  function ReadOperation(attr: string, op: string, operand: string): Option<Condition> {
    if op == "=" && operand == "true" then Some(Flag(attr, true))
    else if op == "=" && operand == "false" then Some(Flag(attr, false))
    else if op == "=" then
      (match ReadString(operand) case Some(v) => Some(Is(attr, v)) case None => None)
    else if op == "!=" then
      (match ReadString(operand) case Some(v) => Some(IsNot(attr, v)) case None => None)
    else if op == ">=" then
      (match Atoi(operand) case Some(n) => Some(AtLeast(attr, n)) case None => None)
    else if op == "<=" then
      (match Atoi(operand) case Some(n) => Some(AtMost(attr, n)) case None => None)
    else None
  }

  function ReadString(operand: string): Option<string> {
    if operand != [] && operand[0] == '"' then Unquoted(operand[1..]) else None
  }

  // ---------- Evaluating ----------

  // What the index stores for a job: the values of its list or scalar attributes, its
  // boolean ones and its numeric ones.
  datatype Document = Document(values: map<string, set<string>>, flags: map<string, bool>, numbers: map<string, int>)

  predicate Has(doc: Document, attr: string, value: string) {
    attr in doc.values && value in doc.values[attr]
  }

  predicate Meets(doc: Document, c: Condition) {
    match c
    case Is(attr, value) => Has(doc, attr, value)
    case IsNot(attr, value) => !Has(doc, attr, value)
    case Flag(attr, v) => attr in doc.flags && doc.flags[attr] == v
    case AtLeast(attr, n) => attr in doc.numbers && doc.numbers[attr] >= n
    case AtMost(attr, n) => attr in doc.numbers && doc.numbers[attr] <= n
  }

  // A fragment the engine cannot read holds of nothing.
  predicate Holds(doc: Document, fragment: string) {
    var c := Read(fragment);
    c.Some? && Meets(doc, c.value)
  }

  predicate AnyHolds(doc: Document, group: seq<string>) {
    exists i :: 0 <= i < |group| && Holds(doc, group[i])
  }

  predicate AllMatch(doc: Document, groups: Groups) {
    forall i :: 0 <= i < |groups| ==> AnyHolds(doc, groups[i])
  }

  predicate Matches(doc: Document, filter: Option<Groups>) {
    filter.Some? ==> AllMatch(doc, filter.value)
  }

  // ---------- What is written is what is read ----------

  lemma {:induction false} UnquotedEscaped(value: string)
    ensures Unquoted(Escaped(value) + "\"") == Some(value)
  {
    if value != [] {
      UnquotedEscaped(value[1..]);
      var rest := Escaped(value[1..]) + "\"";
      var text := Escaped(value) + "\"";
      assert [value[0]] + value[1..] == value;
      if value[0] == '"' || value[0] == '\\' {
        assert text == ['\\', value[0]] + rest;
        assert text[2..] == rest;
      } else {
        assert text == [value[0]] + rest;
        assert text[1..] == rest;
      }
    }
  }

  predicate NoSpace(attr: string) {
    ' ' !in attr
  }

  lemma FirstSpaceAfter(word: string, rest: string)
    requires NoSpace(word)
    ensures FirstSpace(word + " " + rest) == |word|
  {
    var s := word + " " + rest;
    assert s[|word|] == ' ';
    assert forall j :: 0 <= j < |word| ==> s[j] == word[j] && word[j] in word;
  }

  lemma ReadSplits(attr: string, op: string, operand: string)
    requires NoSpace(attr) && NoSpace(op)
    ensures Read(attr + " " + op + " " + operand) == ReadOperation(attr, op, operand)
  {
    var rest := op + " " + operand;
    AfterTheWord(attr, rest);
    AfterTheWord(op, operand);
    Regroup(attr + " ", op + " ", operand);
    Regroup(attr + " ", op, " ");
  }

  // A word, a space and the rest come apart at the space.
  lemma AfterTheWord(word: string, rest: string)
    requires NoSpace(word)
    ensures var s := word + " " + rest;
            FirstSpace(s) == |word| && |word| < |s| && s[..|word|] == word && s[|word| + 1..] == rest
  {
    FirstSpaceAfter(word, rest);
    Parts(word + " ", rest);
    Regroup(word, " ", rest);
    Parts(word, " " + rest);
  }

  // The operator's surrounding spaces.
  lemma Spaced(attr: string, spaced: string, op: string, operand: string)
    requires spaced == " " + op + " "
    ensures attr + spaced + operand == attr + " " + op + " " + operand
  {
  }

  lemma QuotedIsRead(value: string)
    ensures ReadString(Quoted(value)) == Some(value)
    ensures Quoted(value) != "true" && Quoted(value) != "false"
  {
    Regroup("\"", Escaped(value), "\"");
    Cons('"', Escaped(value) + "\"");
    UnquotedEscaped(value);
  }

  // Any value survives, whatever quotes, backslashes or operators it contains.
  lemma EqIsRead(attr: string, value: string)
    requires NoSpace(attr)
    ensures Read(Eq(attr, value)) == Some(Is(attr, value))
  {
    Spaced(attr, " = ", "=", Quoted(value));
    ReadSplits(attr, "=", Quoted(value));
    QuotedIsRead(value);
  }

  lemma NeqIsRead(attr: string, value: string)
    requires NoSpace(attr)
    ensures Read(Neq(attr, value)) == Some(IsNot(attr, value))
  {
    Spaced(attr, " != ", "!=", Quoted(value));
    ReadSplits(attr, "!=", Quoted(value));
    QuotedIsRead(value);
  }

  lemma EqBoolIsRead(attr: string, v: bool)
    requires NoSpace(attr)
    ensures Read(EqBool(attr, v)) == Some(Flag(attr, v))
  {
    var operand := if v then "true" else "false";
    Spaced(attr, " = ", "=", operand);
    ReadSplits(attr, "=", operand);
  }

  lemma GteIsRead(attr: string, n: int)
    requires NoSpace(attr) && MIN_INT64 <= n <= MAX_INT64
    ensures Read(Gte(attr, n)) == Some(AtLeast(attr, n))
  {
    Spaced(attr, " >= ", ">=", Itoa(n));
    ReadSplits(attr, ">=", Itoa(n));
    AtoiReadsItoa(n);
  }

  lemma LteIsRead(attr: string, n: int)
    requires NoSpace(attr) && MIN_INT64 <= n <= MAX_INT64
    ensures Read(Lte(attr, n)) == Some(AtMost(attr, n))
  {
    Spaced(attr, " <= ", "<=", Itoa(n));
    ReadSplits(attr, "<=", Itoa(n));
    AtoiReadsItoa(n);
  }

  // A list without empty groups is passed on unchanged.
  lemma {:induction false} NothingToDrop(groups: Groups)
    requires forall i :: 0 <= i < |groups| ==> groups[i] != []
    ensures NonEmpty(groups) == groups
  {
    if groups != [] {
      NothingToDrop(groups[1..]);
    }
  }
}
