/** The five prompt templates of the travel agent and the part of Python's Format String Syntax
    (`str.format`) that reads them: `{{` and `}}` stand for one literal brace and `{name}` is a
    replacement field filled from the keyword arguments.

    A template is written here as the list of its segments: literal text, which the template
    string spells with every brace doubled, and replacement fields. Of each prompt's text the
    model keeps the lines that hold a brace or a field, as the program writes them, and shortens
    the instructions between them to "…": what is proved depends only on where the braces and
    fields are. */
module Prompts {
  import opened Wrappers
  import opened Json

  /** Literal text (with its braces as the rendered prompt shows them) or a field `{name}`. */
  datatype Segment = Text(text: string) | Slot(name: string)

  predicate IsBrace(c: char) {
    c == '{' || c == '}'
  }

  predicate IdentStart(c: char) {
    ('a' <= c <= 'z') || ('A' <= c <= 'Z') || c == '_'
  }

  predicate IdentChar(c: char) {
    IdentStart(c) || ('0' <= c <= '9')
  }

  /** A field that names a keyword argument: an ASCII identifier, a letter or `_` followed by
      letters, digits and `_`. Such a name holds no brace, conversion `!`, format spec `:`,
      attribute `.` or index `[`, so the field is the name alone. */
  predicate FieldNameOk(n: string) {
    n != "" && IdentStart(n[0]) && forall j :: 0 <= j < |n| ==> IdentChar(n[j])
  }

  ghost predicate WellFormed(segs: seq<Segment>) {
    forall n :: Slot(n) in segs ==> FieldNameOk(n)
  }

  lemma WellFormedSplit(segs: seq<Segment>)
    requires segs != [] && WellFormed(segs)
    ensures segs[0].Slot? ==> FieldNameOk(segs[0].name)
    ensures WellFormed(segs[1..])
  {
    assert segs[0] in segs;
    assert forall g :: g in segs[1..] ==> g in segs;
  }

  /** Literal text as a format string must spell it: every brace doubled. */
  function Escape(t: string): (s: string)
    ensures |s| >= |t|
  {
    if t == [] then ""
    else (if IsBrace(t[0]) then [t[0], t[0]] else [t[0]]) + Escape(t[1..])
  }

  function SpellOne(g: Segment): string {
    match g
    case Text(t) => Escape(t)
    case Slot(n) => "{" + n + "}"
  }

  /** The template string the segments spell, as the Python source literal holds it. */
  function Spell(segs: seq<Segment>): string {
    if segs == [] then "" else SpellOne(segs[0]) + Spell(segs[1..])
  }

  /** What `str.format` reads from a template: a literal character or a replacement field. */
  datatype Piece = Char(c: char) | Field(name: string)

  function Prepend(p: seq<Piece>, r: Result<seq<Piece>>): Result<seq<Piece>>
  {
    if r.Ok? then Ok(p + r.value) else r
  }

  lemma PrependPrepend(a: seq<Piece>, b: seq<Piece>, r: Result<seq<Piece>>)
    ensures Prepend(a, Prepend(b, r)) == Prepend(a + b, r)
  {
    if r.Ok? {
      assert a + (b + r.value) == (a + b) + r.value;
    }
  }

  /** The first brace at or after `i`, or `|s|`. */
  function BraceAt(s: string, i: nat): (k: nat)
    requires i <= |s|
    ensures i <= k <= |s|
    ensures forall j :: i <= j < k ==> !IsBrace(s[j])
    ensures k < |s| ==> IsBrace(s[k])
    decreases |s| - i
  {
    if i == |s| || IsBrace(s[i]) then i else BraceAt(s, i + 1)
  }

  /** The scanner of `str.format` for templates whose fields are plain names, with the messages
      of the ValueError it raises. Everything between `{` and `}` is read as the field name; the
      conversions, format specs, attribute and index access and positional fields that Python
      splits off a field are not separated here. */
  function Scan(s: string): Result<seq<Piece>>
    decreases |s|
  {
    if s == [] then Ok([])
    else if s[0] == '{' then
      if |s| >= 2 && s[1] == '{' then Prepend([Char('{')], Scan(s[2..]))
      else if |s| == 1 then Err("Single '{' encountered in format string")
      else
        var k := BraceAt(s, 1);
        if k == |s| then Err("expected '}' before end of string")
        else if s[k] == '{' then Err("unexpected '{' in field name")
        else Prepend([Field(s[1..k])], Scan(s[k + 1..]))
    else if s[0] == '}' then
      if |s| >= 2 && s[1] == '}' then Prepend([Char('}')], Scan(s[2..]))
      else Err("Single '}' encountered in format string")
    else Prepend([Char(s[0])], Scan(s[1..]))
  }

  function Chars(t: string): (ps: seq<Piece>)
    ensures |ps| == |t|
    ensures forall i :: 0 <= i < |t| ==> ps[i] == Char(t[i])
  {
    if t == [] then [] else [Char(t[0])] + Chars(t[1..])
  }

  function ExpandOne(g: Segment): seq<Piece> {
    match g
    case Text(t) => Chars(t)
    case Slot(n) => [Field(n)]
  }

  /** The pieces a template is made of, read off its segments. */
  function Expand(segs: seq<Segment>): seq<Piece> {
    if segs == [] then [] else ExpandOne(segs[0]) + Expand(segs[1..])
  }

  /** An escaped text scans back to its characters, whatever follows it. */
  lemma {:induction false} ScanEscaped(t: string, rest: string)
    ensures Scan(Escape(t) + rest) == Prepend(Chars(t), Scan(rest))
    decreases |t|
  {
    if t == [] {
      assert Escape(t) + rest == rest;
      if Scan(rest).Ok? {
        assert Chars(t) + Scan(rest).value == Scan(rest).value;
      }
    } else {
      var s := Escape(t) + rest;
      var after := Escape(t[1..]) + rest;
      var n := if IsBrace(t[0]) then 2 else 1;
      assert s == (if IsBrace(t[0]) then [t[0], t[0]] else [t[0]]) + after;
      assert s[n..] == after;
      assert Scan(s) == Prepend([Char(t[0])], Scan(after));
      ScanEscaped(t[1..], rest);
      assert Chars(t) == [Char(t[0])] + Chars(t[1..]);
      PrependPrepend([Char(t[0])], Chars(t[1..]), Scan(rest));
    }
  }

  lemma ScanSlot(n: string, rest: string)
    requires FieldNameOk(n)
    ensures Scan("{" + n + "}" + rest) == Prepend([Field(n)], Scan(rest))
  {
    var s := "{" + n + "}" + rest;
    assert forall j :: 1 <= j <= |n| ==> s[j] == n[j - 1];
    assert forall j :: 1 <= j <= |n| ==> !IsBrace(s[j]) by {
      forall j | 1 <= j <= |n| ensures !IsBrace(s[j]) {
        assert IdentChar(n[j - 1]);
      }
    }
    assert s[|n| + 1] == '}';
    var k := BraceAt(s, 1);
    assert k == |n| + 1;
    assert s[1..k] == n && s[k + 1..] == rest;
  }

  lemma ScanSegment(g: Segment, rest: string)
    requires g.Slot? ==> FieldNameOk(g.name)
    ensures Scan(SpellOne(g) + rest) == Prepend(ExpandOne(g), Scan(rest))
  {
    match g
    case Text(t) => ScanEscaped(t, rest);
    case Slot(n) => ScanSlot(n, rest);
  }

  /** Scanning what a well-formed template spells gives back its pieces: a doubled brace is one
      literal brace and each `{name}` is exactly one field. */
  lemma ScanSpell(segs: seq<Segment>)
    requires WellFormed(segs)
    ensures Scan(Spell(segs)) == Ok(Expand(segs))
  {
    ScanSpellThen(segs, "");
    assert Spell(segs) + "" == Spell(segs);
    assert Expand(segs) + [] == Expand(segs);
  }

  lemma SpellCons(segs: seq<Segment>, rest: string)
    requires segs != []
    ensures Spell(segs) + rest == SpellOne(segs[0]) + (Spell(segs[1..]) + rest)
  {
  }

  lemma {:induction false} ScanSpellThen(segs: seq<Segment>, rest: string)
    requires WellFormed(segs)
    ensures Scan(Spell(segs) + rest) == Prepend(Expand(segs), Scan(rest))
    decreases |segs|
  {
    if segs == [] {
      assert Spell(segs) + rest == rest;
      if Scan(rest).Ok? {
        assert Expand(segs) + Scan(rest).value == Scan(rest).value;
      }
    } else {
      var g, tail := segs[0], segs[1..];
      WellFormedSplit(segs);
      var after := Spell(tail) + rest;
      SpellCons(segs, rest);
      ScanSegment(g, after);
      ScanSpellThen(tail, rest);
      assert Expand(segs) == ExpandOne(g) + Expand(tail);
      PrependPrepend(ExpandOne(g), Expand(tail), Scan(rest));
    }
  }

  /** The names of the replacement fields, in order. */
  function FieldNames(ps: seq<Piece>): seq<string> {
    if ps == [] then [] else (if ps[0].Field? then [ps[0].name] else []) + FieldNames(ps[1..])
  }

  function SlotNames(segs: seq<Segment>): seq<string> {
    if segs == [] then [] else (if segs[0].Slot? then [segs[0].name] else []) + SlotNames(segs[1..])
  }

  /** A name is listed among the fields exactly when the template holds a field of that name. */
  lemma {:induction false} SlotNamesMember(segs: seq<Segment>, n: string)
    ensures n in SlotNames(segs) <==> Slot(n) in segs
    decreases |segs|
  {
    if segs != [] {
      SlotNamesMember(segs[1..], n);
      assert segs == [segs[0]] + segs[1..];
    }
  }

  lemma {:induction false} FieldNamesAppend(a: seq<Piece>, b: seq<Piece>)
    ensures FieldNames(a + b) == FieldNames(a) + FieldNames(b)
    decreases |a|
  {
    if a == [] {
      assert a + b == b;
    } else {
      assert (a + b)[1..] == a[1..] + b;
      FieldNamesAppend(a[1..], b);
    }
  }

  lemma {:induction false} FieldNamesOfChars(t: string)
    ensures FieldNames(Chars(t)) == []
    decreases |t|
  {
    if t != [] {
      assert Chars(t)[1..] == Chars(t[1..]);
      FieldNamesOfChars(t[1..]);
    }
  }

  lemma {:induction false} FieldNamesOfExpand(segs: seq<Segment>)
    ensures FieldNames(Expand(segs)) == SlotNames(segs)
    decreases |segs|
  {
    if segs != [] {
      FieldNamesAppend(ExpandOne(segs[0]), Expand(segs[1..]));
      FieldNamesOfExpand(segs[1..]);
      match segs[0]
      case Text(t) => FieldNamesOfChars(t);
      case _ =>
    }
  }

  /** `str.format(**env)` on scanned pieces: a field is replaced by `str()` of its argument,
      and a field with no argument raises KeyError. */
  function Format(ps: seq<Piece>, env: map<string, Value>): Result<string> {
    if ps == [] then Ok("")
    else
      var head :- FormatPiece(ps[0], env);
      var tail :- Format(ps[1..], env);
      Ok(head + tail)
  }

  function FormatPiece(p: Piece, env: map<string, Value>): Result<string> {
    match p
    case Char(c) => Ok([c])
    case Field(n) => if n in env then Ok(ToStr(env[n])) else Err("'" + n + "'")
  }

  /** The text a template renders to, read off its segments. */
  function Fill(segs: seq<Segment>, env: map<string, Value>): string
    requires forall n :: n in SlotNames(segs) ==> n in env
  {
    if segs == [] then ""
    else
      var head := match segs[0]
        case Text(t) => t
        case Slot(n) => ToStr(env[n]);
      head + Fill(segs[1..], env)
  }

  lemma {:induction false} FormatAppend(a: seq<Piece>, b: seq<Piece>, env: map<string, Value>)
    requires Format(a, env).Ok? && Format(b, env).Ok?
    ensures Format(a + b, env) == Ok(Format(a, env).value + Format(b, env).value)
    decreases |a|
  {
    if a == [] {
      assert a + b == b;
      assert Format(a, env).value + Format(b, env).value == Format(b, env).value;
    } else {
      assert (a + b)[0] == a[0] && (a + b)[1..] == a[1..] + b;
      var head := FormatPiece(a[0], env);
      assert head.Ok? && Format(a[1..], env).Ok?;
      FormatAppend(a[1..], b, env);
      assert Format(a, env).value == head.value + Format(a[1..], env).value;
      assert a + b != [];
      assert Format(a + b, env) == Ok(head.value + Format(a[1..] + b, env).value);
      assert head.value + (Format(a[1..], env).value + Format(b, env).value)
          == (head.value + Format(a[1..], env).value) + Format(b, env).value;
    }
  }

  lemma {:induction false} FormatChars(t: string, env: map<string, Value>)
    ensures Format(Chars(t), env) == Ok(t)
    decreases |t|
  {
    if t != [] {
      var ps := Chars(t);
      assert ps[0] == Char(t[0]) && ps[1..] == Chars(t[1..]);
      FormatChars(t[1..], env);
      assert FormatPiece(ps[0], env) == Ok([t[0]]);
      assert Format(ps, env) == Ok([t[0]] + t[1..]);
      assert [t[0]] + t[1..] == t;
    }
  }

  /** With an argument for every field, formatting never fails and gives the filled template. */
  lemma {:induction false} FormatExpand(segs: seq<Segment>, env: map<string, Value>)
    requires forall n :: n in SlotNames(segs) ==> n in env
    ensures Format(Expand(segs), env) == Ok(Fill(segs, env))
    decreases |segs|
  {
    if segs != [] {
      assert forall n :: n in SlotNames(segs[1..]) ==> n in SlotNames(segs);
      FormatExpand(segs[1..], env);
      match segs[0] {
        case Text(t) => FormatChars(t, env);
        case Slot(n) => assert n in SlotNames(segs);
      }
      FormatAppend(ExpandOne(segs[0]), Expand(segs[1..]), env);
    }
  }

  /** A `PromptTemplate(template=..., input_variables=[...])`. */
  datatype PromptTemplate = PromptTemplate(segments: seq<Segment>, inputVariables: seq<string>)

  /** The template string itself. */
  function TemplateText(t: PromptTemplate): string {
    Spell(t.segments)
  }

  /** `template.invoke(env)`: every declared input variable must be supplied; then `str.format`. */
  function Invoke(t: PromptTemplate, env: map<string, Value>): Result<string> {
    if exists k :: 0 <= k < |t.inputVariables| && t.inputVariables[k] !in env then
      Err("Input to PromptTemplate is missing variables")
    else
      var pieces :- Scan(TemplateText(t));
      Format(pieces, env)
  }

  datatype TemplateName = Oracle | LocationsFromQuery | LocationsFromBook | FinalResponse | Chitchat

  /** The five `create_*_prompt_template` methods. */
  function Create(name: TemplateName): PromptTemplate {
    match name
    case Oracle => PromptTemplate(OracleSegments, ["query"])
    case LocationsFromQuery => PromptTemplate(LocationsFromQuerySegments, ["query"])
    case LocationsFromBook => PromptTemplate(LocationsFromBookSegments, ["query", "context"])
    case FinalResponse => PromptTemplate(FinalResponseSegments, ["query", "context", "weather_info"])
    case Chitchat => PromptTemplate(ChitchatSegments, ["query", "chat_history"])
  }

  const OracleSegments: seq<Segment> :=
    [
     Text("…\n"
          + "            Response: {\"category\": \"weather\"}\n"
          + "…\n"
          + "            Response: {\"category\": \"book\"}\n"
          + "…\n"
          + "            Response: {\"category\": \"chitchat\"}\n"
          + "…\n"
          + "            Response: {\"category\": \"combined\"}\n"
          + "…\n"
          + "            Response: {\"category\": \"irrelevant\"}\n"
          + "…\n"
          + "            Query: \""),
     Slot("query"),
     Text("\"\n"
          + "…")
    ]

  const LocationsFromQuerySegments: seq<Segment> :=
    [
     Text("…\n"
          + "        {\"locations\": [\"Location1\", \"Location2\", ...]}    \n"
          + "        If no locations are found, return an empty list: {\"locations\": []}\n"
          + "…\n"
          + "        Response: {\"locations\": [\"Paris\", \"New York\"]}\n"
          + "…\n"
          + "        Response: {\"locations\": []}\n"
          + "…\n"
          + "        Query: \""),
     Slot("query"),
     Text("\"\n"
          + "…")
    ]

  const LocationsFromBookSegments: seq<Segment> :=
    [
     Text("…\n"
          + "        {\"locations\": [\"Location1\", \"Location2\", ...]}    \n"
          + "        If no locations are found, return an empty list: {\"locations\": []}\n"
          + "…\n"
          + "        User Query: \""),
     Slot("query"),
     Text("\"\n"
          + "        Context: \""),
     Slot("context"),
     Text("\"\n"
          + "…")
    ]

  const FinalResponseSegments: seq<Segment> :=
    [
     Text("…\n"
          + "        User Query: \""),
     Slot("query"),
     Text("\"\n"
          + "        Context: \""),
     Slot("context"),
     Text("\"\n"
          + "        Weather Information: \""),
     Slot("weather_info"),
     Text("\"\n"
          + "…")
    ]

  const ChitchatSegments: seq<Segment> :=
    [
     Text("…\n"
          + "        "),
     Slot("chat_history"),
     Text("\n"
          + "…\n"
          + "        User: \""),
     Slot("query"),
     Text("\"\n"
          + "…")
    ]

  /** The replacement fields `str.format` finds in a template, in order. */
  function Placeholders(t: PromptTemplate): Result<seq<string>> {
    var pieces :- Scan(TemplateText(t));
    Ok(FieldNames(pieces))
  }

  /** The field names of each template, which are also its declared input variables. */
  lemma FieldsOf(name: TemplateName)
    ensures forall n :: Slot(n) in Create(name).segments <==> n in Create(name).inputVariables
  {
  }

  /** The field names the templates use. */
  const UsedNames: seq<string> := ["query", "context", "weather_info", "chat_history"]

  lemma UsedNamesOk()
    ensures forall n :: n in UsedNames ==> FieldNameOk(n)
  {
  }

  lemma DeclaredNamesOk(name: TemplateName)
    ensures forall n :: n in Create(name).inputVariables ==> FieldNameOk(n)
  {
    UsedNamesOk();
    assert forall n :: n in Create(name).inputVariables ==> n in UsedNames;
  }

  /** Every template is a valid format string whose fields are exactly the variables it declares. */
  lemma PlaceholdersAreDeclared(name: TemplateName)
    ensures WellFormed(Create(name).segments)
    ensures Placeholders(Create(name)).Ok?
    ensures forall n :: n in Placeholders(Create(name)).value <==> n in Create(name).inputVariables
  {
    var segs := Create(name).segments;
    FieldsOf(name);
    DeclaredNamesOk(name);
    ScanSpell(segs);
    FieldNamesOfExpand(segs);
    forall n ensures n in SlotNames(segs) <==> Slot(n) in segs {
      SlotNamesMember(segs, n);
    }
  }

  /** A template renders exactly when every declared variable is supplied, and then it renders to
      its text with each field replaced by `str()` of its argument. */
  lemma InvokeFills(name: TemplateName, env: map<string, Value>)
    ensures Invoke(Create(name), env).Ok? <==> forall n :: n in Create(name).inputVariables ==> n in env
    ensures (forall n :: n in Create(name).inputVariables ==> n in env) ==>
      (forall n :: n in SlotNames(Create(name).segments) ==> n in env) &&
      Invoke(Create(name), env) == Ok(Fill(Create(name).segments, env))
  {
    FieldsOf(name);
    DeclaredNamesOk(name);
    InvokeDeclared(Create(name), env);
  }

  /** The same for any well-formed template whose fields are exactly its declared variables. */
  lemma InvokeDeclared(t: PromptTemplate, env: map<string, Value>)
    requires WellFormed(t.segments)
    requires forall n :: Slot(n) in t.segments <==> n in t.inputVariables
    ensures Invoke(t, env).Ok? <==> forall n :: n in t.inputVariables ==> n in env
    ensures (forall n :: n in t.inputVariables ==> n in env) ==>
      (forall n :: n in SlotNames(t.segments) ==> n in env) && Invoke(t, env) == Ok(Fill(t.segments, env))
  {
    if forall n :: n in t.inputVariables ==> n in env {
      forall n | n in SlotNames(t.segments) ensures n in env {
        SlotNamesMember(t.segments, n);
      }
      ScanSpell(t.segments);
      FormatExpand(t.segments, env);
      assert !exists k :: 0 <= k < |t.inputVariables| && t.inputVariables[k] !in env;
      assert Invoke(t, env) == Format(Expand(t.segments), env);
    } else {
      var n :| n in t.inputVariables && n !in env;
      var k :| 0 <= k < |t.inputVariables| && t.inputVariables[k] == n;
      assert Invoke(t, env) == Err("Input to PromptTemplate is missing variables");
    }
  }
}
