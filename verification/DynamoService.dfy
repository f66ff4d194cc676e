/** The part of the table service the repository relies on: items of typed
    attributes, and updates given as expressions over placeholders, which are
    parsed and checked before anything is written. */
module DynamoService {
  import opened Wrappers

  datatype Attr = S(text: string) | N(num: int) | B(flag: bool)

  type Item = map<string, Attr>

  // Items by the value of the partition key.
  type Table = map<string, Item>

  const KEY := "id"

  datatype UpdateInput = UpdateInput(
    key: string,
    update: string,
    condition: string,
    names: map<string, string>,
    values: map<string, Attr>)

  datatype ServiceError = Malformed | UndefinedPlaceholder | UnusedPlaceholder | ForbiddenPath | ConditionFailed

  // ------------------------------------------------------------- parsing

  // White space carries no meaning in an expression.
  function Squeezed(s: string): string {
    if s == "" then ""
    else if s[0] == ' ' then Squeezed(s[1..])
    else [s[0]] + Squeezed(s[1..])
  }

  function Split(s: string, sep: char): (parts: seq<string>)
    ensures parts != []
  {
    if s == "" then [""]
    else
      var rest := Split(s[1..], sep);
      if s[0] == sep then [""] + rest else [[s[0]] + rest[0]] + rest[1..]
  }

  // One assignment of a SET expression: an attribute placeholder and the
  // placeholder of the value it is given.
  datatype Clause = Clause(name: string, value: string)

  function ParseClause(s: string): Option<Clause> {
    var sides := Split(s, '=');
    if |sides| == 2 && sides[0] != "" && sides[1] != "" then Some(Clause(sides[0], sides[1])) else None
  }

  function ParseClauses(pieces: seq<string>): Option<seq<Clause>> {
    if pieces == [] then Some([])
    else
      var first := ParseClause(pieces[0]);
      var rest := ParseClauses(pieces[1..]);
      if first.Some? && rest.Some? then Some([first.value] + rest.value) else None
  }

  function ParseSet(expression: string): Option<seq<Clause>> {
    if "SET " <= expression then ParseClauses(Split(Squeezed(expression[4..]), ',')) else None
  }

  const EXISTS := "attribute_exists("

  function ParseExists(expression: string): Option<string> {
    if |expression| > |EXISTS| && EXISTS <= expression && expression[|expression| - 1] == ')'
    then Some(expression[|EXISTS|..|expression| - 1])
    else None
  }

  // ---------------------------------------------------------- evaluation

  function NamesUsed(clauses: seq<Clause>): set<string> {
    set i | 0 <= i < |clauses| :: clauses[i].name
  }

  function ValuesUsed(clauses: seq<Clause>): set<string> {
    set i | 0 <= i < |clauses| :: clauses[i].value
  }

  // The assignments, in order; Update has checked the placeholders by then.
  function Assigned(item: Item, clauses: seq<Clause>, names: map<string, string>, values: map<string, Attr>): Item {
    if clauses == [] then item
    else
      var last := clauses[|clauses| - 1];
      var before := Assigned(item, clauses[..|clauses| - 1], names, values);
      if last.name in names && last.value in values then before[names[last.name] := values[last.value]]
      else before
  }

  lemma AssignedAppend(item: Item, clauses: seq<Clause>, c: Clause, names: map<string, string>, values: map<string, Attr>)
    requires c.name in names && c.value in values
    ensures Assigned(item, clauses + [c], names, values) ==
            Assigned(item, clauses, names, values)[names[c.name] := values[c.value]]
  {
    assert (clauses + [c])[..|clauses|] == clauses;
  }

  // The attributes a SET expression assigns.
  function Paths(clauses: seq<Clause>, names: map<string, string>): seq<string> {
    seq(|clauses|, i requires 0 <= i < |clauses| =>
      if clauses[i].name in names then names[clauses[i].name] else "")
  }

  // No attribute is assigned twice, and the key is not assigned at all.
  predicate AllowedPaths(paths: seq<string>) {
    && (forall i :: 0 <= i < |paths| ==> paths[i] != KEY)
    && (forall i, k :: 0 <= i < k < |paths| ==> paths[i] != paths[k])
  }

  /** An update: every placeholder must be defined and every defined one used,
      then the condition is evaluated on the stored item, and only then are the
      assignments made, on a new item if there is none. */
  function Update(t: Table, u: UpdateInput): Result<Table, ServiceError> {
    var clauses := ParseSet(u.update);
    var guard := ParseExists(u.condition);
    if clauses.None? || guard.None? then Failure(Malformed)
    else
      var names := NamesUsed(clauses.value) + {guard.value};
      var values := ValuesUsed(clauses.value);
      if !(names <= u.names.Keys) || !(values <= u.values.Keys) then Failure(UndefinedPlaceholder)
      else if names != u.names.Keys || values != u.values.Keys then Failure(UnusedPlaceholder)
      else if !AllowedPaths(Paths(clauses.value, u.names)) then Failure(ForbiddenPath)
      else
        var stored := if u.key in t then t[u.key] else map[];
        if u.names[guard.value] !in stored then Failure(ConditionFailed)
        else
          var base := if u.key in t then t[u.key] else map[KEY := S(u.key)];
          Success(t[u.key := Assigned(base, clauses.value, u.names, u.values)])
  }

  // ------------------------------------------------------ parser laws

  function Join(parts: seq<string>, sep: string): string {
    if parts == [] then ""
    else if |parts| == 1 then parts[0]
    else parts[0] + sep + Join(parts[1..], sep)
  }

  lemma {:induction false} SqueezedConcat(a: string, b: string)
    ensures Squeezed(a + b) == Squeezed(a) + Squeezed(b)
  {
    if a == "" {
      assert a + b == b;
    } else {
      assert (a + b)[1..] == a[1..] + b;
      SqueezedConcat(a[1..], b);
    }
  }

  lemma {:induction false} SqueezedClean(s: string)
    requires ' ' !in s
    ensures Squeezed(s) == s
  {
    if s != "" {
      SqueezedClean(s[1..]);
    }
  }

  function SqueezedAll(parts: seq<string>): seq<string> {
    seq(|parts|, i requires 0 <= i < |parts| => Squeezed(parts[i]))
  }

  lemma {:induction false} SqueezedJoin(parts: seq<string>)
    ensures Squeezed(Join(parts, ", ")) == Join(SqueezedAll(parts), ",")
  {
    if |parts| > 1 {
      var rest := Join(parts[1..], ", ");
      SqueezedJoin(parts[1..]);
      assert Join(parts, ", ") == parts[0] + (", " + rest);
      SqueezedConcat(parts[0], ", " + rest);
      SqueezedConcat(", ", rest);
      assert Squeezed(", ") == ",";
      assert SqueezedAll(parts)[1..] == SqueezedAll(parts[1..]);
    }
  }

  lemma {:induction false} SplitPart(part: string, rest: string, sep: char)
    requires sep !in part
    ensures Split(part, sep) == [part]
    ensures Split(part + [sep] + rest, sep) == [part] + Split(rest, sep)
  {
    if part == "" {
      assert part + [sep] + rest == [sep] + rest;
    } else {
      SplitPart(part[1..], rest, sep);
      assert (part + [sep] + rest)[1..] == part[1..] + [sep] + rest;
      assert part == [part[0]] + part[1..];
    }
  }

  /** Splitting undoes joining, when no part holds the separator. */
  lemma {:induction false} SplitJoin(parts: seq<string>, sep: char)
    requires parts != [] && forall i :: 0 <= i < |parts| ==> sep !in parts[i]
    ensures Split(Join(parts, [sep]), sep) == parts
  {
    if |parts| == 1 {
      SplitPart(parts[0], "", sep);
    } else {
      var rest := parts[1..];
      assert forall i :: 0 <= i < |rest| ==> rest[i] == parts[i + 1];
      SplitJoin(rest, sep);
      SplitPart(parts[0], Join(rest, [sep]), sep);
      assert parts == [parts[0]] + rest;
    }
  }

  predicate Plain(s: string) {
    s != "" && ' ' !in s && ',' !in s && '=' !in s
  }

  function Rendered(c: Clause): string {
    c.name + " = " + c.value
  }

  function RenderedAll(cs: seq<Clause>): seq<string> {
    seq(|cs|, i requires 0 <= i < |cs| => Rendered(cs[i]))
  }

  lemma ClauseRoundTrip(c: Clause)
    requires Plain(c.name) && Plain(c.value)
    ensures Squeezed(Rendered(c)) == c.name + "=" + c.value
    ensures ParseClause(Squeezed(Rendered(c))) == Some(c)
    ensures ',' !in Squeezed(Rendered(c))
  {
    SqueezedConcat(c.name + " = ", c.value);
    SqueezedConcat(c.name, " = ");
    SqueezedClean(c.name);
    SqueezedClean(c.value);
    assert Squeezed(" = ") == "=";
    SplitPart(c.value, "", '=');
    SplitPart(c.name, c.value, '=');
  }

  lemma {:induction false} ClausesRoundTrip(cs: seq<Clause>)
    requires forall i :: 0 <= i < |cs| ==> Plain(cs[i].name) && Plain(cs[i].value)
    ensures ParseClauses(SqueezedAll(RenderedAll(cs))) == Some(cs)
    ensures forall i :: 0 <= i < |cs| ==> ',' !in SqueezedAll(RenderedAll(cs))[i]
  {
    if cs != [] {
      ClausesRoundTrip(cs[1..]);
      ClauseRoundTrip(cs[0]);
      var all := SqueezedAll(RenderedAll(cs));
      assert all[1..] == SqueezedAll(RenderedAll(cs[1..]));
      assert all[0] == Squeezed(Rendered(cs[0]));
      assert cs == [cs[0]] + cs[1..];
      forall i | 0 <= i < |cs| ensures ',' !in all[i] {
        assert i > 0 ==> all[i] == all[1..][i - 1];
      }
    }
  }

  /** Parsing a rendered SET expression gives its clauses back. */
  lemma SetRoundTrip(cs: seq<Clause>)
    requires cs != []
    requires forall i :: 0 <= i < |cs| ==> Plain(cs[i].name) && Plain(cs[i].value)
    ensures ParseSet("SET " + Join(RenderedAll(cs), ", ")) == Some(cs)
  {
    var parts := RenderedAll(cs);
    var expression := "SET " + Join(parts, ", ");
    assert expression[4..] == Join(parts, ", ");
    ClausesRoundTrip(cs);
    SqueezedJoin(parts);
    SplitJoin(SqueezedAll(parts), ',');
  }
}
