/**
 * Prompt construction (src/infrastructure/prompt/repositories/base.py):
 * load a raw template through the storage collaborator, then apply
 * Python's `string.Template.safe_substitute` to its content.
 *
 * Template strings, as defined in the Python Library Reference (`string`
 * module, "Template strings"), are read left to right; at each `$` the
 * first of these that matches is taken:
 *   `$$`      an escaped delimiter, rendered as one `$`;
 *   `$id`     a named placeholder, `id` the longest ASCII identifier
 *             `[_a-zA-Z][_a-zA-Z0-9]*` that follows;
 *   `${id}`   a braced placeholder;
 *   `$`       anything else: an invalid delimiter, left as it is.
 * `safe_substitute` replaces a placeholder whose name is bound and leaves
 * an unbound one, and an invalid `$`, verbatim; it never fails.
 */
module Prompts {
  import opened Wrappers
  import opened Domain

  predicate IsIdStart(c: char) {
    c == '_' || 'a' <= c <= 'z' || 'A' <= c <= 'Z'
  }

  predicate IsIdChar(c: char) {
    IsIdStart(c) || '0' <= c <= '9'
  }

  predicate IsIdentifier(s: string) {
    |s| > 0 && IsIdStart(s[0]) && forall i | 1 <= i < |s| :: IsIdChar(s[i])
  }

  /** The length of the longest prefix of `s` made of identifier characters. */
  function IdCharsLength(s: string): (n: nat)
    ensures n <= |s|
    ensures forall i | 0 <= i < n :: IsIdChar(s[i])
    ensures n < |s| ==> !IsIdChar(s[n])
  {
    if s == [] || !IsIdChar(s[0]) then 0 else 1 + IdCharsLength(s[1..])
  }

  /** The length of the identifier `s` starts with, 0 when it starts with none; the match is greedy. */
  function IdentifierLength(s: string): (n: nat)
    ensures n <= |s|
    ensures n == 0 <==> s == [] || !IsIdStart(s[0])
    ensures n > 0 ==> IsIdentifier(s[..n]) && (n < |s| ==> !IsIdChar(s[n]))
  {
    if s == [] || !IsIdStart(s[0]) then 0 else 1 + IdCharsLength(s[1..])
  }

  /** One lexical piece of a template. */
  datatype Piece =
    | Text(c: char)            // an ordinary character
    | Escaped                  // `$$`
    | Named(name: string)      // `$name`
    | Braced(name: string)     // `${name}`
    | Lone                     // a `$` that starts nothing valid

  predicate IsPlaceholder(p: Piece) {
    p.Named? || p.Braced?
  }

  /**
   * The piece a non-empty template starts with and how many characters it
   * spans: the alternatives are tried in the pattern's order.
   */
  function Front(s: string): (r: (Piece, nat))
    requires s != []
    ensures 0 < r.1 <= |s|
    ensures IsPlaceholder(r.0) ==> IsIdentifier(r.0.name)
  {
    if s[0] != '$' then (Text(s[0]), 1)
    else if |s| > 1 && s[1] == '$' then (Escaped, 2)
    else if IdentifierLength(s[1..]) > 0 then
      var n := IdentifierLength(s[1..]);
      (Named(s[1..1 + n]), 1 + n)
    else if |s| > 1 && s[1] == '{' && 0 < IdentifierLength(s[2..]) && 2 + IdentifierLength(s[2..]) < |s|
            && s[2 + IdentifierLength(s[2..])] == '}' then
      var m := IdentifierLength(s[2..]);
      (Braced(s[2..2 + m]), 3 + m)
    else (Lone, 1)
  }

  /** Splits a template into its pieces the way the Template pattern does. */
  function Scan(s: string): (r: seq<Piece>)
    ensures forall p | p in r && IsPlaceholder(p) :: IsIdentifier(p.name)
    decreases |s|
  {
    if s == [] then [] else [Front(s).0] + Scan(s[Front(s).1..])
  }

  /** The source text of a piece. */
  function Source(p: Piece): string {
    match p
    case Text(c) => [c]
    case Escaped => "$$"
    case Named(n) => "$" + n
    case Braced(n) => "${" + n + "}"
    case Lone => "$"
  }

  /** The source text of a sequence of pieces. */
  function Unscan(ps: seq<Piece>): string {
    if ps == [] then "" else Source(ps[0]) + Unscan(ps[1..])
  }

  /** What `safe_substitute` writes for one piece. */
  function RenderPiece(p: Piece, variables: map<string, string>): string {
    match p
    case Text(c) => [c]
    case Escaped => "$"
    case Named(n) => if n in variables then variables[n] else Source(p)
    case Braced(n) => if n in variables then variables[n] else Source(p)
    case Lone => "$"
  }

  function Render(ps: seq<Piece>, variables: map<string, string>): string {
    if ps == [] then "" else RenderPiece(ps[0], variables) + Render(ps[1..], variables)
  }

  /** `Template(template).safe_substitute(variables)`, each value already converted with `str`. */
  function SafeSubstitute(template: string, variables: map<string, string>): string {
    Render(Scan(template), variables)
  }

  /** The placeholder names a template uses. */
  function Placeholders(template: string): (names: set<string>)
    ensures forall n | n in names :: IsIdentifier(n)
  {
    set p | p in Scan(template) && IsPlaceholder(p) :: p.name
  }

  /** The front piece spells exactly the characters it spans. */
  lemma FrontSource(s: string)
    requires s != []
    ensures Source(Front(s).0) == s[..Front(s).1]
  {
    if s[0] != '$' {
    } else if |s| > 1 && s[1] == '$' {
    } else if IdentifierLength(s[1..]) > 0 {
      var n := IdentifierLength(s[1..]);
      assert s[..1 + n] == "$" + s[1..1 + n];
    } else if |s| > 1 && s[1] == '{' && 0 < IdentifierLength(s[2..]) && 2 + IdentifierLength(s[2..]) < |s|
              && s[2 + IdentifierLength(s[2..])] == '}' {
      var m := IdentifierLength(s[2..]);
      assert s[..3 + m] == "${" + s[2..2 + m] + "}";
    }
  }

  /** Scanning loses nothing: the pieces spell the template again. */
  lemma {:induction false} ScanUnscan(s: string)
    ensures Unscan(Scan(s)) == s
    decreases |s|
  {
    if s != [] {
      var k := Front(s).1;
      ScanUnscan(s[k..]);
      UnscanFront(s);
      FrontSource(s);
      SplitAt(s, k);
    }
  }

  lemma SplitAt(s: string, k: nat)
    requires k <= |s|
    ensures s[..k] + s[k..] == s
  {
  }

  /** The source of a scanned template is that of its front piece followed by that of the rest. */
  lemma UnscanFront(s: string)
    requires s != []
    ensures Unscan(Scan(s)) == Source(Front(s).0) + Unscan(Scan(s[Front(s).1..]))
  {
    UnscanCons(Front(s).0, Scan(s[Front(s).1..]));
  }

  /** The source of a piece followed by others is that piece's source followed by theirs. */
  lemma UnscanCons(p: Piece, rest: seq<Piece>)
    ensures Unscan([p] + rest) == Source(p) + Unscan(rest)
  {
    assert ([p] + rest)[1..] == rest;
  }

  /**
   * A template with no `$$` and no bound placeholder comes back unchanged:
   * unbound placeholders and invalid `$` are kept verbatim.
   */
  lemma {:induction false} NothingToReplace(ps: seq<Piece>, variables: map<string, string>)
    requires forall p | p in ps :: p != Escaped && (IsPlaceholder(p) ==> p.name !in variables)
    ensures Render(ps, variables) == Unscan(ps)
  {
    if ps != [] {
      assert ps[0] in ps;
      assert forall p | p in ps[1..] :: p in ps;
      NothingToReplace(ps[1..], variables);
    }
  }

  /** Unbound placeholders survive: with no `$$` and nothing bound, `safe_substitute` returns its input. */
  lemma UnboundLeftVerbatim(template: string, variables: map<string, string>)
    requires forall p | p in Scan(template) :: p != Escaped
    requires forall n | n in Placeholders(template) :: n !in variables
    ensures SafeSubstitute(template, variables) == template
  {
    NothingToReplace(Scan(template), variables);
    ScanUnscan(template);
  }

  lemma {:induction false} NoDollarIsText(s: string)
    requires '$' !in s
    ensures forall p | p in Scan(s) :: p.Text?
    decreases |s|
  {
    if s != [] {
      assert s[0] in s;
      assert forall c | c in s[1..] :: c in s;
      NoDollarIsText(s[1..]);
    }
  }

  /** Text with no `$` is returned unchanged, so `{{name}}` placeholders of other template languages survive. */
  lemma NoDollarUnchanged(template: string, variables: map<string, string>)
    requires '$' !in template
    ensures SafeSubstitute(template, variables) == template
  {
    NoDollarIsText(template);
    NothingToReplace(Scan(template), variables);
    ScanUnscan(template);
  }

  lemma {:induction false} RenderAgrees(ps: seq<Piece>, v1: map<string, string>, v2: map<string, string>)
    requires forall p | p in ps && IsPlaceholder(p) :: (p.name in v1 <==> p.name in v2) && (p.name in v1 ==> v1[p.name] == v2[p.name])
    ensures Render(ps, v1) == Render(ps, v2)
  {
    if ps != [] {
      assert ps[0] in ps;
      RenderAgrees(ps[1..], v1, v2);
    }
  }

  /** Only the variables a template names matter: extra ones are ignored without error. */
  lemma ExtraVariablesIgnored(template: string, v1: map<string, string>, v2: map<string, string>)
    requires forall n | n in Placeholders(template) :: (n in v1 <==> n in v2) && (n in v1 ==> v1[n] == v2[n])
    ensures SafeSubstitute(template, v1) == SafeSubstitute(template, v2)
  {
    forall p | p in Scan(template) && IsPlaceholder(p)
      ensures (p.name in v1 <==> p.name in v2) && (p.name in v1 ==> v1[p.name] == v2[p.name])
    {
      assert p.name in Placeholders(template);
    }
    RenderAgrees(Scan(template), v1, v2);
  }

  // How `safe_substitute` treats each kind of piece at the front of a template.

  /** An ordinary character is copied. */
  lemma SubstituteChar(c: char, rest: string, variables: map<string, string>)
    requires c != '$'
    ensures SafeSubstitute([c] + rest, variables) == [c] + SafeSubstitute(rest, variables)
  {
    assert ([c] + rest)[1..] == rest;
  }

  /** A run of text without `$` is copied. */
  lemma {:induction false} SubstituteLiteral(text: string, rest: string, variables: map<string, string>)
    requires '$' !in text
    ensures SafeSubstitute(text + rest, variables) == text + SafeSubstitute(rest, variables)
    decreases |text|
  {
    if text == [] {
      assert text + rest == rest;
    } else {
      var c, tail := text[0], text[1..];
      FirstAndTail(text, rest);
      calc {
        SafeSubstitute(text + rest, variables);
        { SubstituteChar(c, tail + rest, variables); }
        [c] + SafeSubstitute(tail + rest, variables);
        { SubstituteLiteral(tail, rest, variables); }
        [c] + (tail + SafeSubstitute(rest, variables));
        { assert [c] + tail == text; }
        text + SafeSubstitute(rest, variables);
      }
    }
  }

  lemma FirstAndTail(text: string, rest: string)
    requires text != [] && '$' !in text
    ensures text[0] != '$' && '$' !in text[1..]
    ensures text + rest == [text[0]] + (text[1..] + rest)
  {
    assert text[0] in text;
    assert forall d | d in text[1..] :: d in text;
    assert text == [text[0]] + text[1..];
  }

  /** `$$` yields one `$`. */
  lemma SubstituteEscaped(rest: string, variables: map<string, string>)
    ensures SafeSubstitute("$$" + rest, variables) == "$" + SafeSubstitute(rest, variables)
  {
    assert ("$$" + rest)[2..] == rest;
  }

  lemma IdentifierPrefix(name: string, rest: string)
    requires IsIdentifier(name)
    requires rest == [] || !IsIdChar(rest[0])
    ensures IdentifierLength(name + rest) == |name|
  {
    var s := name + rest;
    assert s[1..] == name[1..] + rest;
    IdCharsPrefix(name[1..], rest);
  }

  lemma {:induction false} IdCharsPrefix(chars: string, rest: string)
    requires forall i | 0 <= i < |chars| :: IsIdChar(chars[i])
    requires rest == [] || !IsIdChar(rest[0])
    ensures IdCharsLength(chars + rest) == |chars|
    decreases |chars|
  {
    if chars == [] {
      assert chars + rest == rest;
    } else {
      assert (chars + rest)[1..] == chars[1..] + rest;
      IdCharsPrefix(chars[1..], rest);
    }
  }

  /**
   * `$name`, the name not followed by another identifier character, is
   * replaced by the name's value when it is bound and kept otherwise.
   */
  lemma SubstituteNamed(name: string, rest: string, variables: map<string, string>)
    requires IsIdentifier(name)
    requires rest == [] || !IsIdChar(rest[0])
    ensures SafeSubstitute("$" + name + rest, variables)
         == (if name in variables then variables[name] else "$" + name) + SafeSubstitute(rest, variables)
  {
    var s := "$" + name + rest;
    assert s[1..] == name + rest;
    IdentifierPrefix(name, rest);
    assert s[1..1 + |name|] == name;
    assert s[1 + |name|..] == rest;
  }

  /** `${name}` behaves like `$name`: the value when bound, the placeholder itself otherwise. */
  lemma SubstituteBraced(name: string, rest: string, variables: map<string, string>)
    requires IsIdentifier(name)
    ensures SafeSubstitute("${" + name + "}" + rest, variables)
         == (if name in variables then variables[name] else "${" + name + "}") + SafeSubstitute(rest, variables)
  {
    var s := "${" + name + "}" + rest;
    assert s[1] == '{';
    assert s[2..] == name + ("}" + rest);
    IdentifierPrefix(name, "}" + rest);
    assert s[2 + |name|] == '}';
    assert s[2..2 + |name|] == name;
    assert s[3 + |name|..] == rest;
  }

  /**
   * A `$` that starts no escape, no `$name` and no well-formed `${name}` is
   * kept as it is, a brace after it included: `${1}`, `${}` and an
   * unclosed `${a` come out unchanged.
   */
  lemma SubstituteLone(rest: string, variables: map<string, string>)
    requires rest == [] || (rest[0] != '$' && !IsIdStart(rest[0]))
    requires !(rest != [] && rest[0] == '{' && 0 < IdentifierLength(rest[1..]) && 1 + IdentifierLength(rest[1..]) < |rest|
               && rest[1 + IdentifierLength(rest[1..])] == '}')
    ensures SafeSubstitute("$" + rest, variables) == "$" + SafeSubstitute(rest, variables)
  {
    var s := "$" + rest;
    assert s[1..] == rest;
    if rest != [] {
      assert s[2..] == rest[1..];
    }
  }

  /** The empty template and a final `.` render as themselves. */
  lemma SubstituteDot(variables: map<string, string>)
    ensures SafeSubstitute("", variables) == ""
    ensures SafeSubstitute(".", variables) == "."
  {
    SubstituteChar('.', "", variables);
    assert ['.'] + "" == ".";
  }

  /** What `safe_substitute` writes for a placeholder name. */
  function Replacement(name: string, variables: map<string, string>): string {
    if name in variables then variables[name] else "$" + name
  }

  /**
   * A sentence with two `$name` placeholders between runs of plain text:
   * the text is copied and each placeholder is replaced or kept.
   */
  lemma {:induction false} TwoPlaceholders(a: string, x: string, b: string, y: string, c: string, v: map<string, string>)
    requires '$' !in a && '$' !in b && '$' !in c
    requires IsIdentifier(x) && IsIdentifier(y)
    requires b != [] && !IsIdChar(b[0])
    requires c == [] || !IsIdChar(c[0])
    ensures SafeSubstitute(a + ("$" + x + (b + ("$" + y + c))), v)
         == a + (Replacement(x, v) + (b + (Replacement(y, v) + c)))
  {
    calc {
      SafeSubstitute(a + ("$" + x + (b + ("$" + y + c))), v);
      { SubstituteLiteral(a, "$" + x + (b + ("$" + y + c)), v); }
      a + SafeSubstitute("$" + x + (b + ("$" + y + c)), v);
      { SubstituteNamed(x, b + ("$" + y + c), v); }
      a + (Replacement(x, v) + SafeSubstitute(b + ("$" + y + c), v));
      { SubstituteLiteral(b, "$" + y + c, v); }
      a + (Replacement(x, v) + (b + SafeSubstitute("$" + y + c, v)));
      { SubstituteNamed(y, c, v); }
      a + (Replacement(x, v) + (b + (Replacement(y, v) + SafeSubstitute(c, v))));
      { NoDollarUnchanged(c, v); }
      a + (Replacement(x, v) + (b + (Replacement(y, v) + c)));
    }
  }

  // The two sentences of the repository's substitution examples, split
  // at their placeholders.

  lemma WelcomeSplit()
    ensures "Welcome $user, your role is $role." == "Welcome " + ("$" + "user" + (", your role is " + ("$" + "role" + ".")))
    ensures IsIdentifier("user") && IsIdentifier("role")
  {
  }

  lemma HelloSplit()
    ensures "Hello $name, today is $date." == "Hello " + ("$" + "name" + (", today is " + ("$" + "date" + ".")))
    ensures IsIdentifier("name") && IsIdentifier("date")
  {
  }

  lemma WelcomeShape(template: string, v: map<string, string>)
    requires template == "Welcome $user, your role is $role."
    ensures SafeSubstitute(template, v)
         == "Welcome " + (Replacement("user", v) + (", your role is " + (Replacement("role", v) + ".")))
  {
    WelcomeSplit();
    TwoPlaceholders("Welcome ", "user", ", your role is ", "role", ".", v);
  }

  lemma WelcomeValues(v: map<string, string>)
    requires v == map["user" := "Alice", "role" := "Admin"]
    ensures "Welcome " + (Replacement("user", v) + (", your role is " + (Replacement("role", v) + ".")))
         == "Welcome Alice, your role is Admin."
  {
  }

  /** Bound named placeholders are replaced in a full sentence. */
  lemma WelcomeExample(template: string, v: map<string, string>)
    requires template == "Welcome $user, your role is $role."
    requires v == map["user" := "Alice", "role" := "Admin"]
    ensures SafeSubstitute(template, v) == "Welcome Alice, your role is Admin."
  {
    WelcomeShape(template, v);
    WelcomeValues(v);
  }

  lemma HelloShape(template: string, v: map<string, string>)
    requires template == "Hello $name, today is $date."
    ensures SafeSubstitute(template, v)
         == "Hello " + (Replacement("name", v) + (", today is " + (Replacement("date", v) + ".")))
  {
    HelloSplit();
    TwoPlaceholders("Hello ", "name", ", today is ", "date", ".", v);
  }

  lemma HelloValues(v: map<string, string>)
    requires v == map["name" := "Bob"]
    ensures "Hello " + (Replacement("name", v) + (", today is " + (Replacement("date", v) + ".")))
         == "Hello Bob, today is $date."
  {
  }

  /** An unbound placeholder is left as it is while a bound one is replaced. */
  lemma MissingVariableExample(template: string, v: map<string, string>)
    requires template == "Hello $name, today is $date."
    requires v == map["name" := "Bob"]
    ensures SafeSubstitute(template, v) == "Hello Bob, today is $date."
  {
    HelloShape(template, v);
    HelloValues(v);
  }

  /** A variable the template does not name changes nothing. */
  lemma ExtraVariableExample()
    ensures SafeSubstitute("Hi $name.", map["name" := "Charlie", "unused_var" := "I am ignored"]) == "Hi Charlie."
  {
    var v := map["name" := "Charlie", "unused_var" := "I am ignored"];
    assert IsIdentifier("name");
    calc {
      SafeSubstitute("Hi $name.", v);
      { assert "Hi $name." == "Hi " + ("$" + "name" + "."); }
      SafeSubstitute("Hi " + ("$" + "name" + "."), v);
      { SubstituteLiteral("Hi ", "$" + "name" + ".", v); }
      "Hi " + SafeSubstitute("$" + "name" + ".", v);
      { SubstituteNamed("name", ".", v); SubstituteDot(v); }
      "Hi " + ("Charlie" + ".");
      "Hi Charlie.";
    }
  }

  /** Why the storage collaborator could not produce a template. */
  datatype StorageError = NotFound(path: string) | StorageFailure(message: string)

  /** The storage collaborator's `load_template`, as a function of the path. */
  type Storage = string -> Result<PromptTemplate, StorageError>

  /**
   * `_build_prompt`: a storage failure propagates unchanged and no prompt
   * is built; otherwise the prompt's content is the loaded template's
   * content after `safe_substitute`.
   */
  function BuildPrompt(storage: Storage, templatePath: string, variables: map<string, string>): (r: Result<Prompt, StorageError>)
    ensures storage(templatePath).Failure? <==> r.Failure?
    ensures r.Failure? ==> r.error == storage(templatePath).error
    ensures r.Success? ==> r.value.content == SafeSubstitute(storage(templatePath).value.content, variables)
  {
    match storage(templatePath)
    case Failure(e) => Failure(e)
    case Success(raw) => Success(Prompt(SafeSubstitute(raw.content, variables)))
  }

  /** A prompt built from a template without `$` has the template's content. */
  lemma BuildPromptWithoutPlaceholders(storage: Storage, templatePath: string, variables: map<string, string>)
    requires storage(templatePath).Success? && '$' !in storage(templatePath).value.content
    ensures BuildPrompt(storage, templatePath, variables) == Success(Prompt(storage(templatePath).value.content))
  {
    NoDollarUnchanged(storage(templatePath).value.content, variables);
  }
}
