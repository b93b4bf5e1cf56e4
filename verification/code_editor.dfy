/** The completion source of src/components/CodeEditor.tsx:
    `createCompletions`, which turns the dotted word before the cursor into
    the entries of the schema literal that word leads to, and
    `getDetailString`, which renders one entry's detail line. */
module CodeEditor {
  import opened Wrappers
  import opened Strings
  import opened JsTypes

  /** What `context.matchBefore` reports for the pattern `[\w.]+\.[\w]*`:
      the matched text and the document offset where it starts. */
  datatype Word = Word(from: nat, text: string)

  /** One completion option: its `label` (here `name`, `label` being a
      Dafny keyword), `type` (here `tag`) and `detail`. */
  datatype Completion = Completion(name: string, tag: string, detail: string)

  /** The `CompletionResult` returned: the offset completions replace from,
      and the options. */
  datatype CompletionResult = CompletionResult(from: nat, options: seq<Completion>)

  /** How a template literal renders an optional string: `undefined` when
      it is absent. */
  function Show(s: Option<string>): string {
    match s
    case Some(v) => v
    case None => "undefined"
  }

  /** `getDetailString`: an array shows its element type, then an `enum`
      its values, then an object-like field the word `object`, and any other
      field its raw type. `enum` and `properties` count as present even when
      empty, since an array and an object are always truthy. */
  function DetailString(f: Field): string {
    if f.kind == "array" then Show(f.arrayType) + "[]"
    else if f.enumValues.Some? then "enum: " + Join(f.enumValues.value, " | ")
    else if f.properties.Some? then "object"
    else f.kind
  }

  /** The option's `type`: objects are offered as interfaces. */
  function TypeTag(f: Field): string {
    if f.kind == "object" then "interface" else f.kind
  }

  /** `Object.entries(st).map(...)`: one option per entry, in order. */
  function Options(st: TypeStructure): seq<Completion> {
    match st
    case Nil => []
    case Cons(k, f, rest) =>
      [Completion(k, TypeTag(f), DetailString(f))] + Options(rest)
  }

  /** The options follow `Object.entries` one to one and in order: each is
      labelled with its entry's key, tagged `interface` exactly for an
      object and otherwise with the entry's type, and carries the entry's
      detail line. */
  lemma {:induction false} OptionsFollowEntries(st: TypeStructure)
    ensures |Options(st)| == |Entries(st)|
    ensures forall i :: 0 <= i < |Options(st)| ==>
      var e := Entries(st)[i];
      && Options(st)[i].name == e.key
      && Options(st)[i].tag == (if e.field.kind == "object" then "interface" else e.field.kind)
      && Options(st)[i].detail == DetailString(e.field)
  {
    match st
    case Nil =>
    case Cons(k, f, rest) =>
      OptionsFollowEntries(rest);
      assert Entries(st) == [Entry(k, f)] + Entries(rest);
  }

  /** The navigation loop: each name must select an entry that has
      `properties`, and the walk continues in that literal; any other name
      ends it without a result. */
  function Navigate(st: TypeStructure, path: Path): Option<TypeStructure>
    decreases |path|
  {
    if |path| == 0 then Some(st)
    else match Lookup(st, path[0])
      case None => None
      case Some(f) =>
        match f.properties
        case None => None
        case Some(children) => Navigate(children, path[1..])
  }

  /** The word that spells out `parts`: the parts joined by dots, with the
      final dot that asks for completion. */
  function Dotted(parts: seq<string>): string {
    Join(parts, ".") + "."
  }

  /** The names after the root: the word without its final dot, split at
      every dot, less the first part. */
  function Segments(text: string): seq<string>
    requires |text| >= 1
  {
    Split(DropLast(text), '.')
  }

  /** `createCompletions` as a function of the schema it walks and the
      matched word; `None` is the source's `null`. The source always walks
      `HOME_TYPE_STRUCTURE`. */
  function Complete(schema: TypeStructure, word: Option<Word>): (r: Option<CompletionResult>)
    ensures r.Some? ==> word.Some? && EndsWith(word.value.text, ".")
    ensures r.Some? ==> r.value.from == word.value.from + |word.value.text|
  {
    match word
    case None => None
    case Some(w) =>
      if !EndsWith(w.text, ".") then None
      else Resolve(schema, Segments(w.text), w.from + |w.text|)
  }

  /** The result for the parts of a word: the first must lower-case to
      `home`, and the rest are walked from the schema root. */
  function Resolve(schema: TypeStructure, parts: seq<string>, end: nat): Option<CompletionResult>
    requires |parts| >= 1
  {
    if Lower(parts[0]) != "home" then None
    else Offer(schema, parts[1..], end)
  }

  /** The result once the root is accepted: the options of the literal the
      names lead to, replacing from `end`, or `None` when the walk fails. */
  function Offer(schema: TypeStructure, names: Path, end: nat): Option<CompletionResult> {
    match Navigate(schema, names)
    case None => None
    case Some(st) => Some(CompletionResult(end, Options(st)))
  }

  /** `createCompletions`, computing the same result as `Complete`; the
      source always passes `HOME_TYPE_STRUCTURE` as the schema. */
  method CreateCompletions(schema: TypeStructure, word: Option<Word>) returns (r: Option<CompletionResult>)
    ensures r == Complete(schema, word)
  {
    if word.None? || !EndsWith(word.value.text, ".") {
      return None;
    }
    var text := word.value.text;
    var parts := Split(DropLast(text), '.');
    if Lower(parts[0]) != "home" {
      return None;
    }
    var reached := Walk(schema, parts[1..]);
    if reached.None? {
      return None;
    }
    return Some(CompletionResult(word.value.from + |text|, Options(reached.value)));
  }

  /** The navigation loop of `createCompletions`, computing `Navigate`. */
  method Walk(schema: TypeStructure, names: Path) returns (r: Option<TypeStructure>)
    ensures r == Navigate(schema, names)
  {
    var current := schema;
    var i := 0;
    while i < |names|
      invariant 0 <= i <= |names|
      invariant Navigate(schema, names) == Navigate(current, names[i..])
    {
      var entry := Lookup(current, names[i]);
      if entry.Some? && entry.value.properties.Some? {
        assert names[i..][1..] == names[i + 1..];
        current := entry.value.properties.value;
      } else {
        return None;
      }
      i := i + 1;
    }
    return Some(current);
  }

  /** A walk in two legs: navigating `p + q` is navigating `p`, then `q`
      from where `p` ended. */
  lemma {:induction false} NavigateAppend(st: TypeStructure, p: Path, q: Path)
    ensures Navigate(st, p + q) ==
      match Navigate(st, p)
      case None => None
      case Some(mid) => Navigate(mid, q)
    decreases |p|
  {
    if |p| > 0 {
      assert (p + q)[0] == p[0] && (p + q)[1..] == p[1..] + q;
      match Lookup(st, p[0])
      case None =>
      case Some(f) =>
        match f.properties
        case None =>
        case Some(children) => NavigateAppend(children, p[1..], q);
    } else {
      assert p + q == q;
    }
  }

  /** Navigation stops exactly where `At` finds a field with `properties`:
      the walk is governed by `properties`, whatever the field's type. */
  lemma {:induction false} NavigateByAt(st: TypeStructure, path: Path)
    requires |path| >= 1
    ensures Navigate(st, path).Some? <==> At(st, path).Some? && At(st, path).value.properties.Some?
    ensures Navigate(st, path).Some? ==> Navigate(st, path).value == At(st, path).value.properties.value
    decreases |path|
  {
    if |path| > 1 {
      match Lookup(st, path[0])
      case None =>
      case Some(f) =>
        match f.properties
        case None =>
        case Some(children) =>
          NavigateByAt(children, path[1..]);
          assert path[1..][1..] == path[2..];
    } else {
      assert path[1..] == [];
    }
  }

  /** Every name walked enters one more literal: a walk is never longer
      than the depth of the literal it starts in, and what is left below
      the end is shallower by the walk's length. */
  lemma {:induction false} NavigateWithinDepth(st: TypeStructure, path: Path)
    requires Navigate(st, path).Some?
    ensures |path| + Depth(Navigate(st, path).value) <= Depth(st)
    decreases |path|
  {
    if |path| > 0 {
      var f := Lookup(st, path[0]).value;
      LookupWithinDepth(st, path[0]);
      NavigateWithinDepth(f.properties.value, path[1..]);
    }
  }

  /** A word that ends with a dot and spells out a path resolves to the
      options of wherever the path leads from the schema root, or to
      `None` when the walk fails. */
  lemma ResolveOfPath(schema: TypeStructure, from: nat, root: string, path: Path)
    requires Lower(root) == "home"
    requires '.' !in root
    requires forall i :: 0 <= i < |path| ==> '.' !in path[i]
    ensures Complete(schema, Some(Word(from, Dotted([root] + path)))) ==
      Offer(schema, path, from + |Dotted([root] + path)|)
  {
    var body := Join([root] + path, ".");
    var text := body + ".";
    EndsWithChar(text, '.');
    assert DropLast(text) == body;
    SplitOfJoin([root] + path, '.');
    var parts := Segments(text);
    assert parts == [root] + path;
    assert parts[0] == root && parts[1..] == path;
  }

  /** A dot-free root and the first dot after it come off the word as its
      first part. */
  lemma SegmentsAfterRoot(root: string, rest: string)
    requires '.' !in root
    ensures EndsWith(root + "." + rest, ".") <==> rest == "" || EndsWith(rest, ".")
    ensures EndsWith(root + "." + rest, ".") ==>
      Segments(root + "." + rest) == if rest == "" then [root] else [root] + Segments(rest)
  {
    var text := root + "." + rest;
    EndsWithChar(text, '.');
    EndsWithChar(rest, '.');
    if rest == "" {
      assert DropLast(text) == root;
      SplitWithoutSeparator(root, '.');
    } else {
      assert text[|text| - 1] == rest[|rest| - 1];
      if EndsWith(rest, ".") {
        assert DropLast(text) == root + ['.'] + DropLast(rest);
        SplitAfterHead(root, '.', DropLast(rest));
      }
    }
  }

  /** The result for a word split at its first dot into `root` and
      `rest`: the rest must be empty or end with a dot, the root must
      lower-case to `home`, and the names in the rest are walked. */
  function ByRoot(schema: TypeStructure, from: nat, root: string, rest: string): Option<CompletionResult> {
    if rest != "" && !EndsWith(rest, ".") then None
    else if Lower(root) != "home" then None
    else Offer(schema, if rest == "" then [] else Segments(rest), from + |root| + 1 + |rest|)
  }

  /** Completion reads a word's root and the rest separately, as
      `ByRoot` does. */
  lemma CompleteByRoot(schema: TypeStructure, from: nat, root: string, rest: string)
    requires '.' !in root
    ensures Complete(schema, Some(Word(from, root + "." + rest))) == ByRoot(schema, from, root, rest)
  {
    var text := root + "." + rest;
    SegmentsAfterRoot(root, rest);
    if EndsWith(text, ".") {
      var names := if rest == "" then [] else Segments(rest);
      assert Segments(text) == [root] + names;
      ResolveAfterRoot(schema, root, names, from + |text|);
      assert Complete(schema, Some(Word(from, text))) == Resolve(schema, [root] + names, from + |text|);
      assert |text| == |root| + 1 + |rest|;
    } else {
      assert rest != "" && !EndsWith(rest, ".");
    }
  }

  /** Resolving reads the root off the front of the parts. */
  lemma ResolveAfterRoot(schema: TypeStructure, root: string, names: Path, end: nat)
    ensures Resolve(schema, [root] + names, end) ==
      if Lower(root) != "home" then None else Offer(schema, names, end)
  {
    assert ([root] + names)[0] == root && ([root] + names)[1..] == names;
  }

  /** `ByRoot` sees the root only through its lower-case form. */
  lemma ByRootIgnoresCase(schema: TypeStructure, from: nat, root: string, other: string, rest: string)
    requires Lower(root) == Lower(other)
    ensures ByRoot(schema, from, root, rest) == ByRoot(schema, from, other, rest)
  {
    assert |root| == |Lower(root)|;
  }

  /** The root name is matched without regard to case: two roots that
      lower-case alike give the same result, so `home.`, `Home.` and
      `HOME.` agree. */
  lemma RootIgnoresCase(schema: TypeStructure, from: nat, root: string, other: string, rest: string)
    requires Lower(root) == Lower(other)
    requires '.' !in root && '.' !in other
    ensures Complete(schema, Some(Word(from, root + "." + rest))) ==
      Complete(schema, Some(Word(from, other + "." + rest)))
  {
    CompleteByRoot(schema, from, root, rest);
    CompleteByRoot(schema, from, other, rest);
    ByRootIgnoresCase(schema, from, root, other, rest);
  }

  /** Any other first name, the empty one included, gives no result. */
  lemma OtherRootIsRejected(schema: TypeStructure, from: nat, root: string, rest: string)
    requires Lower(root) != "home"
    requires '.' !in root
    ensures Complete(schema, Some(Word(from, root + "." + rest))) == None
  {
    CompleteByRoot(schema, from, root, rest);
  }
}
