/** What completion offers on `HOME_TYPE_STRUCTURE`: the schema-wide
    guarantees the resolver relies on, and the results for the words a
    user types. A word such as `home.bedrooms.` is written
    `Dotted(["home", "bedrooms"])`. */
module CompletionFacts {
  import opened Wrappers
  import opened Strings
  import opened JsTypes
  import opened JsTypesFacts
  import opened CodeEditor

  /** The top level lists the eight sections in declaration order. */
  lemma HomeTopLevelKeys()
    ensures Keys(HomeTypeStructure) ==
      ["bedrooms", "bathrooms", "area", "price", "location", "amenities", "yearBuilt", "utilities"]
  {
  }

  /** No section name is declared twice, so each top-level name selects
      one section. */
  lemma HomeTopLevelDistinct()
    ensures DistinctKeys(HomeTypeStructure)
  {
  }

  /** Every field of the schema is regular: arrays name their element
      type, objects list their fields, every `properties` literal declares
      each key once, and neither `isOptional` nor `isArray` is set. */
  lemma EveryFieldRegular(path: Path)
    requires At(HomeTypeStructure, path).Some?
    ensures Regular(At(HomeTypeStructure, path).value)
  {
    if !Regular(At(HomeTypeStructure, path).value) {
      AtIsCounted(HomeTypeStructure, Irregular, path);
      HomeIsRegular();
    }
  }

  /** `price.history` is the one array that also lists `properties`. */
  lemma OnlyHistoryIsArrayWithProperties(path: Path)
    requires At(HomeTypeStructure, path).Some?
    ensures var f := At(HomeTypeStructure, path).value;
      f.kind == "array" && f.properties.Some? <==> path == ["price", "history"]
  {
    var history := ["price", "history"];
    assert At(HomeTypeStructure, history) == Some(History);
    if InClass(ArrayWithProperties, At(HomeTypeStructure, path).value) {
      HomeHasOneArrayWithProperties();
      CountOneIsUnique(HomeTypeStructure, ArrayWithProperties, path, history);
    }
  }

  /** `area.units` is the one field with an `enum`, whose values are `sqft`
      and `sqm`, and it lists no `properties`. */
  lemma OnlyUnitsHasEnum(path: Path)
    requires At(HomeTypeStructure, path).Some?
    ensures At(HomeTypeStructure, path).value.enumValues.Some? <==> path == ["area", "units"]
    ensures path == ["area", "units"] ==>
      At(HomeTypeStructure, path).value.enumValues == Some(["sqft", "sqm"]) &&
      At(HomeTypeStructure, path).value.properties.None?
  {
    var units := ["area", "units"];
    assert At(HomeTypeStructure, units) == Some(Units);
    if InClass(WithEnum, At(HomeTypeStructure, path).value) {
      HomeHasOneEnum();
      CountOneIsUnique(HomeTypeStructure, WithEnum, path, units);
    }
  }

  /** The detail line of every field of the schema: an array shows its
      declared element type, never `undefined[]`; only `area.units` shows
      an enum; a field with `properties` shows `object`; any other field
      shows its type. */
  lemma DetailOverSchema(path: Path)
    requires At(HomeTypeStructure, path).Some?
    ensures var f := At(HomeTypeStructure, path).value;
      f.kind == "array" ==> f.arrayType.Some? && DetailString(f) == f.arrayType.value + "[]"
    ensures var f := At(HomeTypeStructure, path).value;
      f.kind != "array" && path == ["area", "units"] ==> DetailString(f) == "enum: sqft | sqm"
    ensures var f := At(HomeTypeStructure, path).value;
      f.kind != "array" && path != ["area", "units"] ==>
        DetailString(f) == if f.properties.Some? then "object" else f.kind
  {
    EveryFieldRegular(path);
    OnlyUnitsHasEnum(path);
    if path == ["area", "units"] {
      assert Join(["sqft", "sqm"], " | ") == "sqft | sqm";
    }
  }

  /** `bedrooms.master.dimensions` is a walk of three names. */
  lemma DeepestWalk()
    ensures Navigate(HomeTypeStructure, ["bedrooms", "master", "dimensions"]) ==
      Some(Dimensions.properties.value)
  {
    var master := Bedrooms.properties.value;
    assert Navigate(HomeTypeStructure, ["bedrooms"]) == Some(master);
    assert Navigate(master, ["master", "dimensions"]) == Some(Dimensions.properties.value);
    NavigateAppend(HomeTypeStructure, ["bedrooms"], ["master", "dimensions"]);
    assert ["bedrooms"] + ["master", "dimensions"] == ["bedrooms", "master", "dimensions"];
  }

  /** No walk from the root is longer than three names. */
  lemma WalksAreShort(path: Path)
    requires Navigate(HomeTypeStructure, path).Some?
    ensures |path| <= 3
  {
    NavigateWithinDepth(HomeTypeStructure, path);
    HomeDepth();
  }

  /** Any word naming more than three fields after the root gives no
      result. */
  lemma LongWordsAreRejected(from: nat, root: string, path: Path)
    requires Lower(root) == "home"
    requires '.' !in root
    requires forall i :: 0 <= i < |path| ==> '.' !in path[i]
    requires |path| > 3
    ensures Complete(HomeTypeStructure, Some(Word(from, Dotted([root] + path)))) == None
  {
    ResolveOfPath(HomeTypeStructure, from, root, path);
    if Navigate(HomeTypeStructure, path).Some? {
      WalksAreShort(path);
    }
  }

  /** `home.` offers every top-level section, in declaration order. Any
      case-spelling of `home` may open the word. */
  lemma CompleteHome(from: nat, root: string)
    requires Lower(root) == "home"
    requires '.' !in root
    ensures Complete(HomeTypeStructure, Some(Word(from, Dotted([root])))) ==
      Some(CompletionResult(from + 5, Options(HomeTypeStructure)))
  {
    ResolveOfPath(HomeTypeStructure, from, root, []);
    assert [root] + [] == [root];
  }

  /** The first and the seventh option `home.` offers. */
  lemma HomeOptions()
    ensures |Options(HomeTypeStructure)| == 8
    ensures Options(HomeTypeStructure)[0] == Completion("bedrooms", "interface", "object")
    ensures Options(HomeTypeStructure)[6] == Completion("yearBuilt", "number", "number")
  {
  }

  /** `bedrooms` leads to the room count, the master bedroom and the
      additional rooms. */
  lemma BedroomsLevel()
    ensures Navigate(HomeTypeStructure, ["bedrooms"]) == Some(Bedrooms.properties.value)
    ensures Options(Bedrooms.properties.value) == [
      Completion("count", "number", "number"),
      Completion("master", "interface", "object"),
      Completion("additional", "array", "Room[]")]
  {
    assert "Room" + "[]" == "Room[]";
  }

  /** `home.bedrooms.` offers the room count, the master bedroom as an
      interface, and the additional rooms as an array of `Room`.
      Any case-spelling of `home` may open the word. */
  lemma CompleteBedrooms(from: nat, root: string)
    requires Lower(root) == "home"
    requires '.' !in root
    ensures Complete(HomeTypeStructure, Some(Word(from, Dotted([root, "bedrooms"])))) ==
      Some(CompletionResult(from + 14, [
        Completion("count", "number", "number"),
        Completion("master", "interface", "object"),
        Completion("additional", "array", "Room[]")]))
  {
    ResolveOfPath(HomeTypeStructure, from, root, ["bedrooms"]);
    assert [root] + ["bedrooms"] == [root, "bedrooms"];
    JoinCons(root, ["bedrooms"], ".");
    BedroomsLevel();
  }

  /** `area` leads to the two measurements and the unit enum. */
  lemma AreaLevel()
    ensures Navigate(HomeTypeStructure, ["area"]) == Some(Area.properties.value)
    ensures Options(Area.properties.value) == [
      Completion("interior", "number", "number"),
      Completion("exterior", "number", "number"),
      Completion("units", "string", "enum: sqft | sqm")]
  {
    assert Join(["sqft", "sqm"], " | ") == "sqft | sqm";
    assert "enum: " + "sqft | sqm" == "enum: sqft | sqm";
  }

  /** `home.area.` shows the unit enum's values in its detail.
      Any case-spelling of `home` may open the word. */
  lemma CompleteArea(from: nat, root: string)
    requires Lower(root) == "home"
    requires '.' !in root
    ensures Complete(HomeTypeStructure, Some(Word(from, Dotted([root, "area"])))) ==
      Some(CompletionResult(from + 10, [
        Completion("interior", "number", "number"),
        Completion("exterior", "number", "number"),
        Completion("units", "string", "enum: sqft | sqm")]))
  {
    ResolveOfPath(HomeTypeStructure, from, root, ["area"]);
    assert [root] + ["area"] == [root, "area"];
    JoinCons(root, ["area"], ".");
    AreaLevel();
  }

  /** `price` leads to the amount, the currency and the history. */
  lemma PriceLevel()
    ensures Navigate(HomeTypeStructure, ["price"]) == Some(Price.properties.value)
    ensures Options(Price.properties.value) == [
      Completion("amount", "number", "number"),
      Completion("currency", "string", "string"),
      Completion("history", "array", "object[]")]
  {
    assert "object" + "[]" == "object[]";
  }

  /** `home.price.` shows the history as an array of objects.
      Any case-spelling of `home` may open the word. */
  lemma CompletePrice(from: nat, root: string)
    requires Lower(root) == "home"
    requires '.' !in root
    ensures Complete(HomeTypeStructure, Some(Word(from, Dotted([root, "price"])))) ==
      Some(CompletionResult(from + 11, [
        Completion("amount", "number", "number"),
        Completion("currency", "string", "string"),
        Completion("history", "array", "object[]")]))
  {
    ResolveOfPath(HomeTypeStructure, from, root, ["price"]);
    assert [root] + ["price"] == [root, "price"];
    JoinCons(root, ["price"], ".");
    PriceLevel();
  }

  /** `price.history` leads into the history's `properties` although it is
      an array. */
  lemma HistoryLevel()
    ensures Navigate(HomeTypeStructure, ["price", "history"]) == Some(History.properties.value)
    ensures Options(History.properties.value) == [
      Completion("date", "string", "string"),
      Completion("value", "number", "number")]
  {
    assert Navigate(HomeTypeStructure, ["price"]) == Some(Price.properties.value);
    assert Navigate(Price.properties.value, ["history"]) == Some(History.properties.value);
    NavigateAppend(HomeTypeStructure, ["price"], ["history"]);
    assert ["price"] + ["history"] == ["price", "history"];
  }

  /** `home.price.history.` offers the fields of one history record.
      Any case-spelling of `home` may open the word. */
  lemma CompletePriceHistory(from: nat, root: string)
    requires Lower(root) == "home"
    requires '.' !in root
    ensures Complete(HomeTypeStructure, Some(Word(from, Dotted([root, "price", "history"])))) ==
      Some(CompletionResult(from + 19, [
        Completion("date", "string", "string"),
        Completion("value", "number", "number")]))
  {
    ResolveOfPath(HomeTypeStructure, from, root, ["price", "history"]);
    assert [root] + ["price", "history"] == [root, "price", "history"];
    JoinCons(root, ["price", "history"], ".");
    HistoryLevel();
  }

  /** Walks that stop at a field without `properties`: the enum
      `area.units` and the number `yearBuilt`. */
  lemma LeafWalks()
    ensures Navigate(HomeTypeStructure, ["area", "units"]) == None
    ensures Navigate(HomeTypeStructure, ["yearBuilt"]) == None
  {
    assert Navigate(HomeTypeStructure, ["area"]) == Some(Area.properties.value);
    assert Navigate(Area.properties.value, ["units"]) == None;
    NavigateAppend(HomeTypeStructure, ["area"], ["units"]);
    assert ["area"] + ["units"] == ["area", "units"];
  }

  /** Walks that stop at a name no entry has, the empty name included. */
  lemma UnknownWalks()
    ensures Navigate(HomeTypeStructure, ["nope"]) == None
    ensures Navigate(HomeTypeStructure, [""]) == None
  {
    HomeTopLevelKeys();
    LookupFindsEntry(HomeTypeStructure, "nope");
    LookupFindsEntry(HomeTypeStructure, "");
  }

  /** `home.area.units.` and `home.yearBuilt.` give no result: the walk
      stops at a field that lists no `properties`. */
  lemma LeavesGiveNothing(from: nat, root: string)
    requires Lower(root) == "home"
    requires '.' !in root
    ensures Complete(HomeTypeStructure, Some(Word(from, Dotted([root, "area", "units"])))) == None
    ensures Complete(HomeTypeStructure, Some(Word(from, Dotted([root, "yearBuilt"])))) == None
  {
    LeafWalks();
    ResolveOfPath(HomeTypeStructure, from, root, ["area", "units"]);
    assert [root] + ["area", "units"] == [root, "area", "units"];
    ResolveOfPath(HomeTypeStructure, from, root, ["yearBuilt"]);
    assert [root] + ["yearBuilt"] == [root, "yearBuilt"];
  }

  /** `home.nope.` and `home..` give no result: no entry has that name. */
  lemma UnknownNamesGiveNothing(from: nat, root: string)
    requires Lower(root) == "home"
    requires '.' !in root
    ensures Complete(HomeTypeStructure, Some(Word(from, Dotted([root, "nope"])))) == None
    ensures Complete(HomeTypeStructure, Some(Word(from, Dotted([root, ""])))) == None
  {
    UnknownWalks();
    ResolveOfPath(HomeTypeStructure, from, root, ["nope"]);
    assert [root] + ["nope"] == [root, "nope"];
    ResolveOfPath(HomeTypeStructure, from, root, [""]);
    assert [root] + [""] == [root, ""];
  }

  /** Words that do not end with a dot give no result, and neither does a
      missing word. */
  lemma UnfinishedWordsGiveNothing(from: nat)
    ensures Complete(HomeTypeStructure, None) == None
    ensures Complete(HomeTypeStructure, Some(Word(from, ""))) == None
    ensures Complete(HomeTypeStructure, Some(Word(from, "home"))) == None
    ensures Complete(HomeTypeStructure, Some(Word(from, "home.bed"))) == None
  {
    EndsWithChar("home", '.');
    EndsWithChar("home.bed", '.');
  }

  /** A word opened by `foo` or by the empty name gives no result, whatever
      follows. */
  lemma OtherRootsGiveNothing(from: nat, rest: string)
    ensures Complete(HomeTypeStructure, Some(Word(from, "foo" + "." + rest))) == None
    ensures Complete(HomeTypeStructure, Some(Word(from, "." + rest))) == None
  {
    LowerIsHome("foo");
    LowerIsHome("");
    OtherRootIsRejected(HomeTypeStructure, from, "foo", rest);
    OtherRootIsRejected(HomeTypeStructure, from, "", rest);
    assert "" + "." + rest == "." + rest;
  }
}
