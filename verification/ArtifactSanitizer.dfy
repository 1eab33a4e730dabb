/**
  The sanitiser of failure artifacts. A text carries what decoding it as JSON gives and what redacting it gives, so a
  text that is JSON, a text that is not, and a text that redaction turns into JSON can all be told apart.
 */
module ArtifactSanitizer {
  import opened Collections
  import opened Wrappers
  import opened PyText

  datatype Value =
    | Mapping(items: seq<Item>)
    | List(elements: seq<Value>)
    | Str(text: Text)
    | Atom                    // null, a boolean or a number
    | Moment(iso: Text)       // a datetime
    | Binary                  // bytes
    | Other(shown: Text)      // any other object, as `str` shows it

  datatype Item = Item(key: string, value: Value)

  /** Rendered text is what `json.dumps` made of a value. */
  datatype Text =
    | Raw(content: string, parsed: Option<Value>, redacted: Option<Text>)
    | Rendered(value: Value)

  /**
    The functions the sanitiser takes from outside it: lower casing, the rejection of keys, and the JSON text of a
    value.
   */
  datatype Config = Config(lower: string -> string, drop: string -> bool, show: Value -> string)

  datatype Limits = Limits(maxItems: nat, maxChars: int, maxDepth: nat)

  const DEFAULT_LIMITS: Limits := Limits(256, 100000, 10)
  const OMITTED_KEY: string := "_additional_items" + "_omitted"

  // ---------------------------------------------------------------------
  // Texts
  // ---------------------------------------------------------------------

  function Marker(content: string): Value {
    Str(Raw(content, None, None))
  }

  function ParseOf(t: Text): Option<Value> {
    match t case Raw(_, parsed, _) => parsed case Rendered(v) => Some(v)
  }

  function RedactionOf(t: Text): Text {
    if t.Raw? && t.redacted.Some? then t.redacted.value else t
  }

  function ContentOf(c: Config, t: Text): string {
    match t case Raw(content, _, _) => content case Rendered(v) => c.show(v)
  }

  /** `_truncate`. A cut text ends in the middle of nothing that JSON knows: it is not JSON, redacted or not. */
  function Truncated(c: Config, t: Text, limit: int): Text {
    var content := ContentOf(c, t);
    if |content| <= limit then t
    else
      var suffix := "...[" + Decimal(|content| - limit) + " chars omitted]";
      var kept := if limit - |suffix| > 0 then limit - |suffix| else 0;
      Raw(SliceTo(content, kept) + suffix, None, None)
  }

  predicate StartsWith(s: string, prefix: string) {
    prefix <= s
  }

  predicate EndsWith(s: string, suffix: string) {
    |s| >= |suffix| && s[|s| - |suffix|..] == suffix
  }

  predicate IsImageData(c: Config, t: Text) {
    t.Raw? && StartsWith(c.lower(LStrip(t.content)), "data:image/")
  }

  function Normalized(c: Config, key: string): string {
    c.lower(Strip(key))
  }

  predicate Drops(c: Config, key: string) {
    c.drop(Normalized(c, key))
  }

  predicate IsJsonKey(key: Option<string>) {
    key.Some? && key.value != "" && EndsWith(key.value, "_json")
  }

  // ---------------------------------------------------------------------
  // How deep texts nest
  // ---------------------------------------------------------------------

  /** The longest chain of texts inside texts, through decoding and redaction. */
  function Depth(v: Value): nat
    decreases v
  {
    match v
    case Mapping(items) => DepthOfItems(items)
    case List(elements) => DepthOfList(elements)
    case Str(t) => DepthOfText(t)
    case Atom => 0
    case Moment(t) => DepthOfText(t)
    case Binary => 0
    case Other(t) => DepthOfText(t)
  }

  function DepthOfItems(items: seq<Item>): nat
    decreases items
  {
    if items == [] then 0 else Max(DepthOfItems(items[..|items| - 1]), Depth(items[|items| - 1].value))
  }

  function DepthOfList(elements: seq<Value>): nat
    decreases elements
  {
    if elements == [] then 0 else Max(DepthOfList(elements[..|elements| - 1]), Depth(elements[|elements| - 1]))
  }

  function DepthOfText(t: Text): nat
    decreases t
  {
    match t
    case Rendered(v) => 1 + Depth(v)
    case Raw(_, parsed, redacted) =>
      Max(if parsed.Some? then 1 + Depth(parsed.value) else 0,
          if redacted.Some? then DepthOfText(redacted.value) else 0)
  }

  // ---------------------------------------------------------------------
  // The sanitiser
  // ---------------------------------------------------------------------

  /** Assigning a key of a dictionary. */
  function Put(items: seq<Item>, key: string, value: Value): seq<Item> {
    if items == [] then [Item(key, value)]
    else if items[|items| - 1].key == key then items[..|items| - 1] + [Item(key, value)]
    else Put(items[..|items| - 1], key, value) + [items[|items| - 1]]
  }

  /** The `type` entry of an item, when it is a plain text. */
  function TypeOf(c: Config, items: seq<Item>): string {
    if items == [] then ""
    else
      var last := items[|items| - 1];
      if last.key == "type"
        then (if last.value.Str? && last.value.text.Raw? then Normalized(c, last.value.text.content) else "")
      else TypeOf(c, items[..|items| - 1])
  }

  predicate IsDroppedType(t: string) {
    t == "computer_screenshot" || t == "image" || t == "image_url" || t == "input_image" || t == "reasoning"
  }

  function Passes(limit: int): seq<Limits> {
    var quarter := if limit / 4 >= 32 then limit / 4 else 32;
    [Limits(64, Lesser(4000, quarter), 8), Limits(32, Lesser(1000, quarter), 6),
     Limits(16, Lesser(300, quarter), 5), Limits(8, Lesser(100, quarter), 4)]
  }

  function Lesser(a: int, b: int): int {
    if a <= b then a else b
  }

  function TruncatedDiagnostic(): Value {
    Mapping([Item("diagnostic_truncated", Atom)])
  }

  /** `_sanitize_value`: it terminates because nothing it decodes nests deeper than what it was decoded from. */
  function Sanitize(c: Config, v: Value, key: Option<string>, depth: nat, l: Limits): (r: Value)
    ensures Depth(r) <= Depth(v)
    decreases Depth(v), 1, v
  {
    if depth > l.maxDepth then Marker("[maximum depth omitted]")
    else
      match v
      case Mapping(items) =>
        if IsDroppedType(TypeOf(c, items)) then Marker("[image/reasoning item omitted]")
        else
          DepthOfFirstItems(items, l.maxItems);
          var kept := SanitizeItems(c, First(items, l.maxItems), depth, l);
          DepthOfPut(kept, OMITTED_KEY, Atom);
          Mapping(if |items| > l.maxItems then Put(kept, OMITTED_KEY, Atom) else kept)
      case List(elements) =>
        DepthOfFirstElements(elements, l.maxItems);
        var kept := SanitizeList(c, First(elements, l.maxItems), key, depth, l);
        var omitted := if |elements| > l.maxItems then |elements| - l.maxItems else 0;
        var note := Marker("[" + Decimal(omitted) + " additional items omitted]");
        DepthOfMore(kept, note);
        List(if omitted > 0 then kept + [note] else kept)
      case Str(t) => SanitizeText(c, t, key, depth, l)
      case Atom => Atom
      case Moment(t) => Str(t)
      case Binary => Marker("[binary data omitted]")
      case Other(t) =>
        TruncatedDepth(c, RedactionOf(t), l.maxChars);
        Str(Truncated(c, RedactionOf(t), l.maxChars))
  }

  function SanitizeText(c: Config, t: Text, key: Option<string>, depth: nat, l: Limits): (r: Value)
    ensures Depth(r) <= DepthOfText(t)
    decreases DepthOfText(t), 1, t
  {
    if IsImageData(c, t) then Marker("[image data omitted]")
    else if IsJsonKey(key) && ParseOf(t).Some? then
      Str(BoundedJson(c, Sanitize(c, ParseOf(t).value, None, depth + 1, l), l.maxChars))
    else
      TruncatedDepth(c, RedactionOf(t), l.maxChars);
      Str(Truncated(c, RedactionOf(t), l.maxChars))
  }

  function SanitizeItems(c: Config, items: seq<Item>, depth: nat, l: Limits): (r: seq<Item>)
    ensures DepthOfItems(r) <= DepthOfItems(items)
    decreases DepthOfItems(items), 1, items
  {
    if items == [] then []
    else
      var front, last := SanitizeItems(c, items[..|items| - 1], depth, l), items[|items| - 1];
      if Drops(c, last.key) then front
      else
        var value := Sanitize(c, last.value, Some(Normalized(c, last.key)), depth + 1, l);
        DepthOfPut(front, last.key, value);
        Put(front, last.key, value)
  }

  function SanitizeList(c: Config, elements: seq<Value>, key: Option<string>, depth: nat, l: Limits): (r: seq<Value>)
    ensures DepthOfList(r) <= DepthOfList(elements)
    decreases DepthOfList(elements), 1, elements
  {
    if elements == [] then []
    else
      var front := SanitizeList(c, elements[..|elements| - 1], key, depth, l);
      var last := Sanitize(c, elements[|elements| - 1], key, depth + 1, l);
      DepthOfMore(front, last);
      front + [last]
  }

  /** `_bounded_json_string`: the value as it is, or sanitised again from depth 0 under ever smaller limits. */
  function BoundedJson(c: Config, v: Value, limit: int): (t: Text)
    ensures t.Rendered? && Depth(t.value) <= Depth(v)
    ensures |c.show(t.value)| <= Max(limit, |c.show(TruncatedDiagnostic())|)
    decreases Depth(v), 3
  {
    if |c.show(v)| <= limit then Rendered(v) else Compacted(c, v, limit, 0)
  }

  function Compacted(c: Config, v: Value, limit: int, pass: nat): (t: Text)
    requires pass <= 4
    ensures t.Rendered? && Depth(t.value) <= Depth(v)
    ensures |c.show(t.value)| <= Max(limit, |c.show(TruncatedDiagnostic())|)
    decreases Depth(v), 2, 4 - pass
  {
    if pass == 4 then
      DepthOfTruncatedDiagnostic();
      Rendered(TruncatedDiagnostic())
    else
      var compact := Sanitize(c, v, None, 0, Passes(limit)[pass]);
      if |c.show(compact)| <= limit then Rendered(compact) else Compacted(c, v, limit, pass + 1)
  }

  // ---------------------------------------------------------------------
  // Depth facts
  // ---------------------------------------------------------------------

  lemma TruncatedDepth(c: Config, t: Text, limit: int)
    ensures DepthOfText(Truncated(c, t, limit)) <= DepthOfText(t)
  {
  }

  lemma {:induction false} DepthOfPut(items: seq<Item>, key: string, value: Value)
    ensures DepthOfItems(Put(items, key, value)) <= Max(DepthOfItems(items), Depth(value))
  {
    if items == [] {
      assert [Item(key, value)][..0] == [];
    } else {
      var front, last := items[..|items| - 1], items[|items| - 1];
      if last.key != key {
        DepthOfPut(front, key, value);
      }
      var put := Put(items, key, value);
      assert put[..|put| - 1] == if last.key == key then front else Put(front, key, value);
    }
  }

  lemma DepthOfMore(elements: seq<Value>, more: Value)
    ensures DepthOfList(elements + [more]) == Max(DepthOfList(elements), Depth(more))
  {
    assert (elements + [more])[..|elements|] == elements;
  }

  lemma {:induction false} DepthOfFirstItems(items: seq<Item>, n: nat)
    ensures DepthOfItems(First(items, n)) <= DepthOfItems(items)
  {
    if |items| > n {
      DepthOfFirstItems(items[..|items| - 1], n);
      assert First(items[..|items| - 1], n) == First(items, n);
    }
  }

  lemma {:induction false} DepthOfFirstElements(elements: seq<Value>, n: nat)
    ensures DepthOfList(First(elements, n)) <= DepthOfList(elements)
  {
    if |elements| > n {
      DepthOfFirstElements(elements[..|elements| - 1], n);
      assert First(elements[..|elements| - 1], n) == First(elements, n);
    }
  }

  lemma DepthOfTruncatedDiagnostic()
    ensures Depth(TruncatedDiagnostic()) == 0
  {
    var items := [Item("diagnostic_truncated", Atom)];
    assert items[..0] == [];
  }

  // ---------------------------------------------------------------------
  // No rejected key remains
  // ---------------------------------------------------------------------

  /** No mapping key that is rejected stands in the value, at any depth, nor in any text rendered from a value. */
  predicate Clean(c: Config, v: Value)
    decreases v
  {
    match v
    case Mapping(items) => CleanItems(c, items)
    case List(elements) => CleanList(c, elements)
    case Str(t) => CleanText(c, t)
    case _ => true
  }

  predicate CleanItems(c: Config, items: seq<Item>)
    decreases items
  {
    items == []
      || (CleanItems(c, items[..|items| - 1]) && !Drops(c, items[|items| - 1].key)
          && Clean(c, items[|items| - 1].value))
  }

  predicate CleanList(c: Config, elements: seq<Value>)
    decreases elements
  {
    elements == [] || (CleanList(c, elements[..|elements| - 1]) && Clean(c, elements[|elements| - 1]))
  }

  predicate CleanText(c: Config, t: Text)
    decreases t
  {
    t.Rendered? ==> Clean(c, t.value)
  }

  /**
    Every text rendered from a value, also inside what texts decode or redact to, is clean: so are all rendered by this
    module.
   */
  predicate Ready(c: Config, v: Value)
    decreases v
  {
    match v
    case Mapping(items) => ReadyItems(c, items)
    case List(elements) => ReadyList(c, elements)
    case Str(t) => ReadyText(c, t)
    case Moment(t) => ReadyText(c, t)
    case Other(t) => ReadyText(c, t)
    case _ => true
  }

  predicate ReadyItems(c: Config, items: seq<Item>)
    decreases items
  {
    items == [] || (ReadyItems(c, items[..|items| - 1]) && Ready(c, items[|items| - 1].value))
  }

  predicate ReadyList(c: Config, elements: seq<Value>)
    decreases elements
  {
    elements == [] || (ReadyList(c, elements[..|elements| - 1]) && Ready(c, elements[|elements| - 1]))
  }

  predicate ReadyText(c: Config, t: Text)
    decreases t
  {
    match t
    case Rendered(v) => Clean(c, v) && Ready(c, v)
    case Raw(_, parsed, redacted) =>
      (parsed.Some? ==> Ready(c, parsed.value)) && (redacted.Some? ==> ReadyText(c, redacted.value))
  }

  /** The keys that the sanitiser and the serializer add are not rejected ones. */
  ghost predicate KeepsOwnKeys(c: Config) {
    && !Drops(c, OMITTED_KEY) && !Drops(c, "diagnostic_truncated")
    && !Drops(c, "artifact_truncated") && !Drops(c, "original_size_bytes") && !Drops(c, "artifact")
  }

  lemma CleanItemsAppend(c: Config, items: seq<Item>, last: Item)
    ensures CleanItems(c, items + [last]) <==> CleanItems(c, items) && !Drops(c, last.key) && Clean(c, last.value)
  {
    assert (items + [last])[..|items|] == items;
  }

  lemma {:induction false} CleanPut(c: Config, items: seq<Item>, key: string, value: Value)
    requires CleanItems(c, items) && !Drops(c, key) && Clean(c, value)
    ensures CleanItems(c, Put(items, key, value))
  {
    if items == [] {
      CleanItemsAppend(c, [], Item(key, value));
      assert [] + [Item(key, value)] == [Item(key, value)];
    } else {
      var front, last := items[..|items| - 1], items[|items| - 1];
      if last.key == key {
        CleanItemsAppend(c, front, Item(key, value));
      } else {
        CleanPut(c, front, key, value);
        CleanItemsAppend(c, Put(front, key, value), last);
      }
    }
  }

  lemma CleanListAppend(c: Config, elements: seq<Value>, last: Value)
    ensures CleanList(c, elements + [last]) <==> CleanList(c, elements) && Clean(c, last)
  {
    assert (elements + [last])[..|elements|] == elements;
  }

  lemma ReadyItemsAppend(c: Config, items: seq<Item>, last: Item)
    ensures ReadyItems(c, items + [last]) <==> ReadyItems(c, items) && Ready(c, last.value)
  {
    assert (items + [last])[..|items|] == items;
  }

  lemma ReadyListAppend(c: Config, elements: seq<Value>, last: Value)
    ensures ReadyList(c, elements + [last]) <==> ReadyList(c, elements) && Ready(c, last)
  {
    assert (elements + [last])[..|elements|] == elements;
  }

  lemma {:induction false} ReadyPut(c: Config, items: seq<Item>, key: string, value: Value)
    requires ReadyItems(c, items) && Ready(c, value)
    ensures ReadyItems(c, Put(items, key, value))
  {
    if items == [] {
      ReadyItemsAppend(c, [], Item(key, value));
      assert [] + [Item(key, value)] == [Item(key, value)];
    } else {
      var front, last := items[..|items| - 1], items[|items| - 1];
      if last.key == key {
        ReadyItemsAppend(c, front, Item(key, value));
      } else {
        ReadyPut(c, front, key, value);
        ReadyItemsAppend(c, Put(front, key, value), last);
      }
    }
  }

  lemma {:induction false} ReadyFirstItems(c: Config, items: seq<Item>, n: nat)
    requires ReadyItems(c, items)
    ensures ReadyItems(c, First(items, n))
  {
    if |items| > n {
      ReadyFirstItems(c, items[..|items| - 1], n);
      assert First(items[..|items| - 1], n) == First(items, n);
    }
  }

  lemma {:induction false} ReadyFirstElements(c: Config, elements: seq<Value>, n: nat)
    requires ReadyList(c, elements)
    ensures ReadyList(c, First(elements, n))
  {
    if |elements| > n {
      ReadyFirstElements(c, elements[..|elements| - 1], n);
      assert First(elements[..|elements| - 1], n) == First(elements, n);
    }
  }

  ghost predicate Good(c: Config, v: Value) {
    Clean(c, v) && Ready(c, v)
  }

  lemma TruncatedIsGood(c: Config, t: Text, limit: int)
    requires ReadyText(c, t)
    ensures Good(c, Str(Truncated(c, RedactionOf(t), limit)))
  {
  }

  /** Whatever is sanitised comes out clean. */
  lemma {:induction false} SanitizeIsGood(c: Config, v: Value, key: Option<string>, depth: nat, l: Limits)
    requires KeepsOwnKeys(c) && Ready(c, v)
    ensures Good(c, Sanitize(c, v, key, depth, l))
    decreases Depth(v), 1, v
  {
    if depth <= l.maxDepth {
      match v {
        case Mapping(items) =>
          if !IsDroppedType(TypeOf(c, items)) {
            DepthOfFirstItems(items, l.maxItems);
            ReadyFirstItems(c, items, l.maxItems);
            ItemsAreGood(c, First(items, l.maxItems), depth, l);
            var kept := SanitizeItems(c, First(items, l.maxItems), depth, l);
            CleanPut(c, kept, OMITTED_KEY, Atom);
            ReadyPut(c, kept, OMITTED_KEY, Atom);
          }
        case List(elements) =>
          DepthOfFirstElements(elements, l.maxItems);
          ReadyFirstElements(c, elements, l.maxItems);
          ListIsGood(c, First(elements, l.maxItems), key, depth, l);
          NoteIsGood(c, SanitizeList(c, First(elements, l.maxItems), key, depth, l), |elements| - l.maxItems);
        case Str(t) =>
          TextIsGood(c, t, key, depth, l);
        case Moment(t) =>
        case Other(t) =>
          TruncatedIsGood(c, t, l.maxChars);
        case _ =>
      }
    }
  }

  lemma NoteIsGood(c: Config, kept: seq<Value>, omitted: int)
    requires CleanList(c, kept) && ReadyList(c, kept)
    ensures omitted > 0 ==> Good(c, List(kept + [Marker("[" + Decimal(omitted) + " additional items omitted]")]))
    ensures Good(c, List(kept))
  {
    if omitted > 0 {
      var note := Marker("[" + Decimal(omitted) + " additional items omitted]");
      CleanListAppend(c, kept, note);
      ReadyListAppend(c, kept, note);
    }
  }

  lemma {:induction false} TextIsGood(c: Config, t: Text, key: Option<string>, depth: nat, l: Limits)
    requires KeepsOwnKeys(c) && ReadyText(c, t)
    ensures Good(c, SanitizeText(c, t, key, depth, l))
    decreases DepthOfText(t), 1, t
  {
    if !IsImageData(c, t) {
      if IsJsonKey(key) && ParseOf(t).Some? {
        SanitizeIsGood(c, ParseOf(t).value, None, depth + 1, l);
        BoundedJsonIsGood(c, Sanitize(c, ParseOf(t).value, None, depth + 1, l), l.maxChars);
      } else {
        TruncatedIsGood(c, t, l.maxChars);
      }
    }
  }

  lemma {:induction false} ItemsAreGood(c: Config, items: seq<Item>, depth: nat, l: Limits)
    requires KeepsOwnKeys(c) && ReadyItems(c, items)
    ensures CleanItems(c, SanitizeItems(c, items, depth, l)) && ReadyItems(c, SanitizeItems(c, items, depth, l))
    decreases DepthOfItems(items), 1, items
  {
    if items != [] {
      var front, last := SanitizeItems(c, items[..|items| - 1], depth, l), items[|items| - 1];
      ItemsAreGood(c, items[..|items| - 1], depth, l);
      if !Drops(c, last.key) {
        var value := Sanitize(c, last.value, Some(Normalized(c, last.key)), depth + 1, l);
        SanitizeIsGood(c, last.value, Some(Normalized(c, last.key)), depth + 1, l);
        CleanPut(c, front, last.key, value);
        ReadyPut(c, front, last.key, value);
      }
    }
  }

  lemma {:induction false} ListIsGood(c: Config, elements: seq<Value>, key: Option<string>, depth: nat, l: Limits)
    requires KeepsOwnKeys(c) && ReadyList(c, elements)
    ensures CleanList(c, SanitizeList(c, elements, key, depth, l))
      && ReadyList(c, SanitizeList(c, elements, key, depth, l))
    decreases DepthOfList(elements), 1, elements
  {
    if elements != [] {
      var front, last := elements[..|elements| - 1], elements[|elements| - 1];
      ListIsGood(c, front, key, depth, l);
      SanitizeIsGood(c, last, key, depth + 1, l);
      CleanListAppend(c, SanitizeList(c, front, key, depth, l), Sanitize(c, last, key, depth + 1, l));
      ReadyListAppend(c, SanitizeList(c, front, key, depth, l), Sanitize(c, last, key, depth + 1, l));
    }
  }

  lemma {:induction false} BoundedJsonIsGood(c: Config, v: Value, limit: int)
    requires KeepsOwnKeys(c) && Good(c, v)
    ensures Good(c, Str(BoundedJson(c, v, limit)))
    decreases Depth(v), 3
  {
    if |c.show(v)| > limit {
      CompactedIsGood(c, v, limit, 0);
    }
  }

  lemma {:induction false} CompactedIsGood(c: Config, v: Value, limit: int, pass: nat)
    requires KeepsOwnKeys(c) && Good(c, v) && pass <= 4
    ensures Good(c, Str(Compacted(c, v, limit, pass)))
    decreases Depth(v), 2, 4 - pass
  {
    if pass == 4 {
      CleanItemsAppend(c, [], Item("diagnostic_truncated", Atom));
      ReadyItemsAppend(c, [], Item("diagnostic_truncated", Atom));
      assert [] + [Item("diagnostic_truncated", Atom)] == [Item("diagnostic_truncated", Atom)];
    } else {
      SanitizeIsGood(c, v, None, 0, Passes(limit)[pass]);
      if |c.show(Sanitize(c, v, None, 0, Passes(limit)[pass]))| > limit {
        CompactedIsGood(c, v, limit, pass + 1);
      }
    }
  }

  // ---------------------------------------------------------------------
  // The laws of the sanitiser
  // ---------------------------------------------------------------------

  /** What arrives from outside: nothing in it was rendered by this module. */
  predicate Incoming(v: Value)
    decreases v
  {
    match v
    case Mapping(items) => IncomingItems(items)
    case List(elements) => IncomingList(elements)
    case Str(t) => IncomingText(t)
    case Moment(t) => IncomingText(t)
    case Other(t) => IncomingText(t)
    case _ => true
  }

  predicate IncomingItems(items: seq<Item>)
    decreases items
  {
    items == [] || (IncomingItems(items[..|items| - 1]) && Incoming(items[|items| - 1].value))
  }

  predicate IncomingList(elements: seq<Value>)
    decreases elements
  {
    elements == [] || (IncomingList(elements[..|elements| - 1]) && Incoming(elements[|elements| - 1]))
  }

  predicate IncomingText(t: Text)
    decreases t
  {
    t.Raw? && (t.parsed.Some? ==> Incoming(t.parsed.value)) && (t.redacted.Some? ==> IncomingText(t.redacted.value))
  }

  lemma {:induction false} IncomingIsReady(c: Config, v: Value)
    requires Incoming(v)
    ensures Ready(c, v)
    decreases v
  {
    match v {
      case Mapping(items) => IncomingItemsAreReady(c, items);
      case List(elements) => IncomingListIsReady(c, elements);
      case Str(t) => IncomingTextIsReady(c, t);
      case Moment(t) => IncomingTextIsReady(c, t);
      case Other(t) => IncomingTextIsReady(c, t);
      case _ =>
    }
  }

  lemma {:induction false} IncomingItemsAreReady(c: Config, items: seq<Item>)
    requires IncomingItems(items)
    ensures ReadyItems(c, items)
    decreases items
  {
    if items != [] {
      IncomingItemsAreReady(c, items[..|items| - 1]);
      IncomingIsReady(c, items[|items| - 1].value);
    }
  }

  lemma {:induction false} IncomingListIsReady(c: Config, elements: seq<Value>)
    requires IncomingList(elements)
    ensures ReadyList(c, elements)
    decreases elements
  {
    if elements != [] {
      IncomingListIsReady(c, elements[..|elements| - 1]);
      IncomingIsReady(c, elements[|elements| - 1]);
    }
  }

  lemma {:induction false} IncomingTextIsReady(c: Config, t: Text)
    requires IncomingText(t)
    ensures ReadyText(c, t)
    decreases t
  {
    if t.parsed.Some? {
      IncomingIsReady(c, t.parsed.value);
    }
    if t.redacted.Some? {
      IncomingTextIsReady(c, t.redacted.value);
    }
  }

  /** No rejected key remains at any depth of the result, nor in any text that was rendered for a `_json` string. */
  lemma SanitizedIsClean(c: Config, v: Value, key: Option<string>, depth: nat, l: Limits)
    requires KeepsOwnKeys(c) && Incoming(v)
    ensures Clean(c, Sanitize(c, v, key, depth, l))
  {
    IncomingIsReady(c, v);
    SanitizeIsGood(c, v, key, depth, l);
  }

  // ---------------------------------------------------------------------
  // The `_json` strings
  // ---------------------------------------------------------------------

  function KeyOf(c: Config, item: Item): Option<string> {
    Some(Normalized(c, item.key))
  }

  /**
    `key` is the nearest key above the value, as the sanitiser passes it down. Every text below a `_json` key, through
    lists too, decodes to a clean value if it decodes at all; the same holds inside what it decodes to.
   */
  predicate JsonClean(c: Config, v: Value, key: Option<string>)
    decreases v
  {
    match v
    case Mapping(items) => JsonCleanItems(c, items)
    case List(elements) => JsonCleanList(c, elements, key)
    case Str(t) => IsJsonKey(key) ==> DecodesClean(c, t)
    case _ => true
  }

  predicate JsonCleanItems(c: Config, items: seq<Item>)
    decreases items
  {
    items == []
    || (JsonCleanItems(c, items[..|items| - 1]) && JsonClean(c, items[|items| - 1].value, KeyOf(c, items[|items| - 1])))
  }

  predicate JsonCleanList(c: Config, elements: seq<Value>, key: Option<string>)
    decreases elements
  {
    elements == [] || (JsonCleanList(c, elements[..|elements| - 1], key) && JsonClean(c, elements[|elements| - 1], key))
  }

  predicate DecodesClean(c: Config, t: Text)
    decreases t
  {
    match t
    case Rendered(v) => Clean(c, v) && JsonClean(c, v, None)
    case Raw(_, parsed, _) => parsed.Some? ==> Clean(c, parsed.value) && JsonClean(c, parsed.value, None)
  }

  /**
    What redaction leaves of a `_json` string that does not decode, and what `str` shows of an object below such a key,
    decodes to a clean value if it decodes at all.
   */
  predicate Unexposed(c: Config, v: Value, key: Option<string>)
    decreases v
  {
    match v
    case Mapping(items) => UnexposedItems(c, items)
    case List(elements) => UnexposedList(c, elements, key)
    case Str(t) => IsJsonKey(key) ==> UnexposedText(c, t)
    case Moment(t) => IsJsonKey(key) ==> UnexposedText(c, t) && DecodesClean(c, t)
    case Other(t) => IsJsonKey(key) ==> UnexposedText(c, t) && DecodesClean(c, RedactionOf(t))
    case _ => true
  }

  predicate UnexposedItems(c: Config, items: seq<Item>)
    decreases items
  {
    items == []
    || (UnexposedItems(c, items[..|items| - 1]) && Unexposed(c, items[|items| - 1].value, KeyOf(c, items[|items| - 1])))
  }

  predicate UnexposedList(c: Config, elements: seq<Value>, key: Option<string>)
    decreases elements
  {
    elements == [] || (UnexposedList(c, elements[..|elements| - 1], key) && Unexposed(c, elements[|elements| - 1], key))
  }

  predicate UnexposedText(c: Config, t: Text)
    decreases t
  {
    match t
    case Rendered(v) => Unexposed(c, v, None)
    case Raw(_, parsed, redacted) =>
      && (parsed.Some? ==> Unexposed(c, parsed.value, None))
      && (redacted.Some? ==> UnexposedText(c, redacted.value) && (parsed.None? ==> DecodesClean(c, redacted.value)))
  }

  /** What the sanitiser keeps of a value, so that it can be sanitised again. */
  ghost predicate Fine(c: Config, v: Value, key: Option<string>) {
    JsonClean(c, v, key) && Unexposed(c, v, key)
  }

  ghost predicate FineItems(c: Config, items: seq<Item>) {
    JsonCleanItems(c, items) && UnexposedItems(c, items)
  }

  ghost predicate FineList(c: Config, elements: seq<Value>, key: Option<string>) {
    JsonCleanList(c, elements, key) && UnexposedList(c, elements, key)
  }

  lemma FineItemsAppend(c: Config, items: seq<Item>, last: Item)
    ensures FineItems(c, items + [last]) <==> FineItems(c, items) && Fine(c, last.value, KeyOf(c, last))
  {
    assert (items + [last])[..|items|] == items;
  }

  lemma {:induction false} FinePut(c: Config, items: seq<Item>, key: string, value: Value)
    requires FineItems(c, items) && Fine(c, value, Some(Normalized(c, key)))
    ensures FineItems(c, Put(items, key, value))
  {
    var item := Item(key, value);
    if items == [] {
      FineItemsAppend(c, [], item);
      assert [] + [item] == [item];
    } else {
      var front, last := items[..|items| - 1], items[|items| - 1];
      assert items == front + [last];
      FineItemsAppend(c, front, last);
      if last.key == key {
        FineItemsAppend(c, front, item);
      } else {
        FinePut(c, front, key, value);
        FineItemsAppend(c, Put(front, key, value), last);
      }
    }
  }

  lemma FineListAppend(c: Config, elements: seq<Value>, last: Value, key: Option<string>)
    ensures FineList(c, elements + [last], key) <==> FineList(c, elements, key) && Fine(c, last, key)
  {
    assert (elements + [last])[..|elements|] == elements;
  }

  lemma {:induction false} UnexposedFirstItems(c: Config, items: seq<Item>, n: nat)
    requires UnexposedItems(c, items)
    ensures UnexposedItems(c, First(items, n))
  {
    if |items| > n {
      UnexposedFirstItems(c, items[..|items| - 1], n);
      assert First(items[..|items| - 1], n) == First(items, n);
    }
  }

  lemma {:induction false} UnexposedFirstElements(c: Config, elements: seq<Value>, key: Option<string>, n: nat)
    requires UnexposedList(c, elements, key)
    ensures UnexposedList(c, First(elements, n), key)
  {
    if |elements| > n {
      UnexposedFirstElements(c, elements[..|elements| - 1], key, n);
      assert First(elements[..|elements| - 1], n) == First(elements, n);
    }
  }

  lemma MarkerIsFine(c: Config, content: string, key: Option<string>)
    ensures Fine(c, Marker(content), key)
  {
  }

  /** A text that was not decoded and is kept, or cut. */
  lemma KeptTextIsFine(c: Config, t: Text, key: Option<string>, limit: int)
    requires IsJsonKey(key) ==> UnexposedText(c, t) && DecodesClean(c, t)
    ensures Fine(c, Str(Truncated(c, t, limit)), key)
  {
  }

  lemma {:induction false} SanitizeIsFine(c: Config, v: Value, key: Option<string>, depth: nat, l: Limits)
    requires KeepsOwnKeys(c) && Ready(c, v) && Unexposed(c, v, key)
    ensures Fine(c, Sanitize(c, v, key, depth, l), key)
    decreases Depth(v), 1, v
  {
    if depth <= l.maxDepth {
      match v {
        case Mapping(items) =>
          if !IsDroppedType(TypeOf(c, items)) {
            DepthOfFirstItems(items, l.maxItems);
            ReadyFirstItems(c, items, l.maxItems);
            UnexposedFirstItems(c, items, l.maxItems);
            ItemsAreFine(c, First(items, l.maxItems), depth, l);
            FinePut(c, SanitizeItems(c, First(items, l.maxItems), depth, l), OMITTED_KEY, Atom);
          }
        case List(elements) =>
          DepthOfFirstElements(elements, l.maxItems);
          ReadyFirstElements(c, elements, l.maxItems);
          UnexposedFirstElements(c, elements, key, l.maxItems);
          ListIsFine(c, First(elements, l.maxItems), key, depth, l);
          NoteIsFine(c, SanitizeList(c, First(elements, l.maxItems), key, depth, l), |elements| - l.maxItems, key);
        case Str(t) =>
          TextIsFine(c, t, key, depth, l);
        case Moment(t) =>
        case Other(t) =>
          RedactionIsUnexposed(c, t);
          KeptTextIsFine(c, RedactionOf(t), key, l.maxChars);
        case _ =>
      }
    }
  }

  lemma NoteIsFine(c: Config, kept: seq<Value>, omitted: int, key: Option<string>)
    requires FineList(c, kept, key)
    ensures omitted > 0 ==> Fine(c, List(kept + [Marker("[" + Decimal(omitted) + " additional items omitted]")]), key)
    ensures Fine(c, List(kept), key)
  {
    if omitted > 0 {
      var note := Marker("[" + Decimal(omitted) + " additional items omitted]");
      MarkerIsFine(c, note.text.content, key);
      FineListAppend(c, kept, note, key);
    }
  }

  lemma RedactionIsUnexposed(c: Config, t: Text)
    ensures UnexposedText(c, t) ==> UnexposedText(c, RedactionOf(t))
    ensures UnexposedText(c, t) && ParseOf(t).None? ==> DecodesClean(c, RedactionOf(t))
  {
  }

  lemma {:induction false} TextIsFine(c: Config, t: Text, key: Option<string>, depth: nat, l: Limits)
    requires KeepsOwnKeys(c) && ReadyText(c, t) && (IsJsonKey(key) ==> UnexposedText(c, t))
    ensures Fine(c, SanitizeText(c, t, key, depth, l), key)
    decreases DepthOfText(t), 1, t
  {
    if !IsImageData(c, t) {
      if IsJsonKey(key) && ParseOf(t).Some? {
        DecodedIsFine(c, ParseOf(t).value, key, depth, l);
      } else {
        RedactionIsUnexposed(c, t);
        KeptTextIsFine(c, RedactionOf(t), key, l.maxChars);
      }
    }
  }

  lemma {:induction false} DecodedIsFine(c: Config, decoded: Value, key: Option<string>, depth: nat, l: Limits)
    requires KeepsOwnKeys(c) && Ready(c, decoded) && Unexposed(c, decoded, None)
    ensures Fine(c, Str(BoundedJson(c, Sanitize(c, decoded, None, depth + 1, l), l.maxChars)), key)
    decreases Depth(decoded), 5
  {
    SanitizeIsGood(c, decoded, None, depth + 1, l);
    SanitizeIsFine(c, decoded, None, depth + 1, l);
    BoundedJsonIsFine(c, Sanitize(c, decoded, None, depth + 1, l), l.maxChars, key);
  }

  lemma {:induction false} ItemsAreFine(c: Config, items: seq<Item>, depth: nat, l: Limits)
    requires KeepsOwnKeys(c) && ReadyItems(c, items) && UnexposedItems(c, items)
    ensures FineItems(c, SanitizeItems(c, items, depth, l))
    decreases DepthOfItems(items), 1, items
  {
    if items != [] {
      var front, last := items[..|items| - 1], items[|items| - 1];
      ItemsAreFine(c, front, depth, l);
      if !Drops(c, last.key) {
        SanitizeIsFine(c, last.value, KeyOf(c, last), depth + 1, l);
        FinePut(c, SanitizeItems(c, front, depth, l), last.key, Sanitize(c, last.value, KeyOf(c, last), depth + 1, l));
      }
    }
  }

  lemma {:induction false} ListIsFine(c: Config, elements: seq<Value>, key: Option<string>, depth: nat, l: Limits)
    requires KeepsOwnKeys(c) && ReadyList(c, elements) && UnexposedList(c, elements, key)
    ensures FineList(c, SanitizeList(c, elements, key, depth, l), key)
    decreases DepthOfList(elements), 1, elements
  {
    if elements != [] {
      var front, last := elements[..|elements| - 1], elements[|elements| - 1];
      ListIsFine(c, front, key, depth, l);
      SanitizeIsFine(c, last, key, depth + 1, l);
      FineListAppend(c, SanitizeList(c, front, key, depth, l), Sanitize(c, last, key, depth + 1, l), key);
    }
  }

  lemma {:induction false} BoundedJsonIsFine(c: Config, v: Value, limit: int, key: Option<string>)
    requires KeepsOwnKeys(c) && Good(c, v) && Fine(c, v, None)
    ensures Fine(c, Str(BoundedJson(c, v, limit)), key)
    decreases Depth(v), 3
  {
    BoundedJsonIsGood(c, v, limit);
    assert CleanText(c, BoundedJson(c, v, limit));
    if |c.show(v)| > limit {
      CompactedIsFine(c, v, limit, 0);
    }
  }

  lemma {:induction false} CompactedIsFine(c: Config, v: Value, limit: int, pass: nat)
    requires KeepsOwnKeys(c) && Good(c, v) && Fine(c, v, None) && pass <= 4
    ensures Fine(c, Compacted(c, v, limit, pass).value, None)
    decreases Depth(v), 2, 4 - pass
  {
    if pass == 4 {
      FineItemsAppend(c, [], Item("diagnostic_truncated", Atom));
      assert [] + [Item("diagnostic_truncated", Atom)] == [Item("diagnostic_truncated", Atom)];
    } else {
      SanitizeIsFine(c, v, None, 0, Passes(limit)[pass]);
      if |c.show(Sanitize(c, v, None, 0, Passes(limit)[pass]))| > limit {
        CompactedIsFine(c, v, limit, pass + 1);
      }
    }
  }

  /**
    Below the `_json` keys of the result, at any depth and inside decoded texts too, no text decodes to a value with a
    rejected key, unless redaction or `str` made it JSON.
   */
  lemma JsonStringsAreClean(c: Config, v: Value, key: Option<string>, depth: nat, l: Limits)
    requires KeepsOwnKeys(c) && Incoming(v) && Unexposed(c, v, key)
    ensures JsonClean(c, Sanitize(c, v, key, depth, l), key)
  {
    IncomingIsReady(c, v);
    SanitizeIsFine(c, v, key, depth, l);
  }

  /** A `_json` string that decodes is replaced by the rendering of a clean value. */
  lemma JsonStringIsRendered(c: Config, t: Text, key: Option<string>, depth: nat, l: Limits)
    requires KeepsOwnKeys(c) && IncomingText(t) && IsJsonKey(key) && depth <= l.maxDepth
    requires t.parsed.Some? && !IsImageData(c, t)
    ensures var r := Sanitize(c, Str(t), key, depth, l); r.Str? && r.text.Rendered? && Clean(c, r.text.value)
  {
    assert Incoming(Str(t));
    SanitizedIsClean(c, Str(t), key, depth, l);
  }

  /** The text, if it decodes at all, decodes to a clean value. */
  predicate TextDecodesClean(c: Config, v: Value) {
    v.Str? && ParseOf(v.text).Some? ==> Clean(c, ParseOf(v.text).value)
  }

  /** A text that was no JSON is made JSON by redaction, is short enough to be kept whole, and holds a rejected key. */
  predicate ExposedByRedaction(c: Config, t: Text, l: Limits) {
    && !IsImageData(c, t) && ParseOf(t).None?
    && |ContentOf(c, RedactionOf(t))| <= l.maxChars
    && ParseOf(RedactionOf(t)).Some? && !Clean(c, ParseOf(RedactionOf(t)).value)
  }

  /** One `_json` string decodes to a clean value afterwards exactly unless redaction made it JSON. */
  lemma JsonStringCleanIff(c: Config, t: Text, key: Option<string>, depth: nat, l: Limits)
    requires KeepsOwnKeys(c) && IncomingText(t) && IsJsonKey(key) && depth <= l.maxDepth
    ensures TextDecodesClean(c, Sanitize(c, Str(t), key, depth, l)) <==> !ExposedByRedaction(c, t, l)
  {
    assert Incoming(Str(t));
    SanitizedIsClean(c, Str(t), key, depth, l);
  }

  /** Redaction puts quotes around the secret `x`: a text that was no JSON becomes JSON and keeps its key. */
  const SECRET_TEXT: string := "{\"token\": x, \"user_id\": 1}"
  const REDACTED_TEXT: string := "{\"token\": \"[redacted]\", \"user_id\": 1}"
  const REDACTED_ITEMS: seq<Item> := [Item("token", Marker("[redacted]")), Item("user_id", Atom)]

  /** That text, which decodes to nothing, and its redaction, which decodes. */
  function SecretText(): Text {
    Raw(SECRET_TEXT, None, Some(Raw(REDACTED_TEXT, Some(Mapping(REDACTED_ITEMS)), None)))
  }

  function SecretArtifact(): seq<Item> {
    [Item("x_json", Str(SecretText()))]
  }

  lemma RedactedItemsAreIncoming()
    ensures Incoming(Mapping(REDACTED_ITEMS))
  {
    var items := REDACTED_ITEMS;
    var front := items[..1];
    assert front[..|front| - 1] == [] && front[0] == items[0];
    assert Incoming(items[0].value) && Incoming(items[1].value);
    assert IncomingItems(front);
  }

  lemma RedactedItemsAreNotClean(c: Config)
    requires c.drop == ShouldDrop && c.lower("user_id") == "user_id"
    ensures !Clean(c, Mapping(REDACTED_ITEMS))
  {
    StripTight("user_id");
    assert REDACTED_ITEMS[1].key == "user_id";
  }

  lemma SecretTextIsKept(c: Config, depth: nat)
    requires c.lower(SECRET_TEXT) == SECRET_TEXT && depth <= DEFAULT_LIMITS.maxDepth
    ensures Sanitize(c, Str(SecretText()), Some("x_json"), depth, DEFAULT_LIMITS) == Str(RedactionOf(SecretText()))
  {
    assert SECRET_TEXT[0] == '{';
    assert LStrip(SECRET_TEXT) == SECRET_TEXT;
  }

  lemma OneItemIsKept(c: Config, key: string, v: Value, l: Limits)
    requires key != "type" && !Drops(c, key) && l.maxItems >= 1
    ensures Sanitize(c, Mapping([Item(key, v)]), None, 0, l)
         == Mapping([Item(key, Sanitize(c, v, Some(Normalized(c, key)), 1, l))])
  {
    var items := [Item(key, v)];
    assert items[..0] == [] && First(items, l.maxItems) == items;
    assert TypeOf(c, items) == "";
    assert |"computer_screenshot"| > 0 && |"image"| > 0 && |"image_url"| > 0 && |"input_image"| > 0
      && |"reasoning"| > 0;
    assert SanitizeItems(c, items[..0], 0, l) == [];
  }

  lemma JsonKeyIsKept(c: Config)
    requires c.drop == ShouldDrop && c.lower("x_json") == "x_json"
    ensures Normalized(c, "x_json") == "x_json" && !Drops(c, "x_json") && IsJsonKey(Some("x_json"))
  {
    StripTight("x_json");
    NotADroppedKey("x_json");
    assert "x_json"[1..] == "_json";
  }

  /**
    `{"token": x, "user_id": 1}` below the key `x_json` goes through the sanitiser and then decodes to a rejected key.
   */
  lemma RedactionCanExpose(c: Config)
    requires c.drop == ShouldDrop && c.lower("x_json") == "x_json" && c.lower("user_id") == "user_id"
    requires c.lower(SECRET_TEXT) == SECRET_TEXT
    ensures Incoming(Mapping(SecretArtifact())) && ExposedByRedaction(c, SecretText(), DEFAULT_LIMITS)
    ensures !JsonClean(c, Sanitize(c, Mapping(SecretArtifact()), None, 0, DEFAULT_LIMITS), None)
  {
    var items, kept := SecretArtifact(), Str(RedactionOf(SecretText()));
    RedactedItemsAreIncoming();
    assert items[..0] == [] && Incoming(items[0].value);
    RedactedItemsAreNotClean(c);
    SecretTextIsKept(c, 1);
    JsonKeyIsKept(c);
    OneItemIsKept(c, "x_json", Str(SecretText()), DEFAULT_LIMITS);
    OneUncleanItem(c, Item("x_json", kept));
  }

  lemma OneUncleanItem(c: Config, item: Item)
    requires !JsonClean(c, item.value, KeyOf(c, item))
    ensures !JsonClean(c, Mapping([item]), None)
  {
    assert [item][..0] == [];
  }

  // ---------------------------------------------------------------------
  // The artifact
  // ---------------------------------------------------------------------

  const ARTIFACT_BYTE_LIMIT: nat := 240000
  const PREVIEW_CHARS: nat := 80000

  /** The kept keys, in the order they are looked up. */
  function Essential(items: seq<Item>, keys: seq<string>): seq<Item> {
    if keys == [] then []
    else
      var front, key := Essential(items, keys[..|keys| - 1]), keys[|keys| - 1];
      if HasKey(items, key) then Put(front, key, Lookup(items, key)) else front
  }

  predicate HasKey(items: seq<Item>, key: string) {
    items != [] && (items[|items| - 1].key == key || HasKey(items[..|items| - 1], key))
  }

  function Lookup(items: seq<Item>, key: string): Value
    requires HasKey(items, key)
  {
    if items[|items| - 1].key == key then items[|items| - 1].value else Lookup(items[..|items| - 1], key)
  }

  function Flagged(items: seq<Item>): seq<Item> {
    Put(Put(items, "artifact_truncated", Atom), "original_size_bytes", Atom)
  }

  function PreviewOf(preview: string): Value {
    Mapping(Flagged([]) + [Item("preview", Str(Raw(preview, None, None)))])
  }

  /** Clean, and with clean `_json` strings when `unexposed` says that redaction exposed nothing. */
  ghost predicate Safe(c: Config, v: Value, key: Option<string>, unexposed: bool) {
    Good(c, v) && (unexposed ==> Fine(c, v, key))
  }

  ghost predicate SafeItems(c: Config, items: seq<Item>, unexposed: bool) {
    CleanItems(c, items) && ReadyItems(c, items) && (unexposed ==> FineItems(c, items))
  }

  lemma SafePut(c: Config, items: seq<Item>, key: string, v: Value, unexposed: bool)
    requires SafeItems(c, items, unexposed) && !Drops(c, key) && Safe(c, v, Some(Normalized(c, key)), unexposed)
    ensures SafeItems(c, Put(items, key, v), unexposed)
  {
    CleanPut(c, items, key, v);
    ReadyPut(c, items, key, v);
    if unexposed {
      FinePut(c, items, key, v);
    }
  }

  /** A sanitised mapping is a mapping or a marker, so it is safe under every key. */
  lemma SanitizedIsSafe(c: Config, items: seq<Item>, l: Limits, unexposed: bool, key: Option<string>)
    requires KeepsOwnKeys(c) && ReadyItems(c, items) && (unexposed ==> UnexposedItems(c, items))
    ensures Safe(c, Sanitize(c, Mapping(items), None, 0, l), key, unexposed)
    ensures var r := Sanitize(c, Mapping(items), None, 0, l); r.Mapping? ==> SafeItems(c, r.items, unexposed)
  {
    SanitizeIsGood(c, Mapping(items), None, 0, l);
    if unexposed {
      SanitizeIsFine(c, Mapping(items), None, 0, l);
    }
  }

  lemma {:induction false} LookupIsSafe(c: Config, items: seq<Item>, key: string, unexposed: bool)
    requires SafeItems(c, items, unexposed) && HasKey(items, key)
    ensures !Drops(c, key) && Safe(c, Lookup(items, key), Some(Normalized(c, key)), unexposed)
  {
    if items[|items| - 1].key != key {
      LookupIsSafe(c, items[..|items| - 1], key, unexposed);
    }
  }

  lemma {:induction false} EssentialIsSafe(c: Config, items: seq<Item>, keys: seq<string>, unexposed: bool)
    requires SafeItems(c, items, unexposed)
    ensures SafeItems(c, Essential(items, keys), unexposed)
  {
    if keys != [] {
      var front, key := Essential(items, keys[..|keys| - 1]), keys[|keys| - 1];
      EssentialIsSafe(c, items, keys[..|keys| - 1], unexposed);
      if HasKey(items, key) {
        LookupIsSafe(c, items, key, unexposed);
        SafePut(c, front, key, Lookup(items, key), unexposed);
      }
    }
  }

  lemma FlaggedIsSafe(c: Config, items: seq<Item>, unexposed: bool)
    requires KeepsOwnKeys(c) && SafeItems(c, items, unexposed)
    ensures SafeItems(c, Flagged(items), unexposed) && Safe(c, Mapping(Flagged(items)), None, unexposed)
  {
    SafePut(c, items, "artifact_truncated", Atom, unexposed);
    SafePut(c, Put(items, "artifact_truncated", Atom), "original_size_bytes", Atom, unexposed);
  }

  /** The stage that produced the artifact. */
  datatype Stage = Whole | Compact | Reduced | PreviewOnly

  /**
    `serialize_live_benchmark_failure_artifact`: at most 240000 characters, all of them ASCII. But for the last stage,
    which quotes the beginning of a JSON text, the artifact is a clean value, and below its `_json` keys nothing decodes
    to a value with a rejected key unless redaction exposes one.
   */
  method SerializeArtifact(c: Config, payload: seq<Item>, essentialKeys: seq<string>)
    returns (artifact: string, ghost value: Value, ghost stage: Stage)
    requires KeepsOwnKeys(c) && IncomingItems(payload) && |c.show(PreviewOf(""))| <= ARTIFACT_BYTE_LIMIT
    ensures |artifact| <= ARTIFACT_BYTE_LIMIT && artifact == c.show(value)
    ensures stage != PreviewOnly ==> Clean(c, value)
    ensures stage != PreviewOnly && UnexposedItems(c, payload) ==> JsonClean(c, value, None)
    ensures stage == PreviewOnly ==> exists preview :: |preview| <= PREVIEW_CHARS && value == PreviewOf(preview)
  {
    artifact, value, stage := RenderStages(c, payload, essentialKeys, UnexposedItems(c, payload));
    if |artifact| <= ARTIFACT_BYTE_LIMIT {
      return;
    }
    var preview: string;
    artifact, preview := BoundPreview(c, SliceTo(artifact, PREVIEW_CHARS));
    value, stage := PreviewOf(preview), PreviewOnly;
  }

  /** The first three stages: whole, compacted, reduced to the essential keys. */
  method RenderStages(c: Config, payload: seq<Item>, essentialKeys: seq<string>, ghost unexposed: bool)
    returns (artifact: string, ghost value: Value, ghost stage: Stage)
    requires KeepsOwnKeys(c) && IncomingItems(payload) && (unexposed ==> UnexposedItems(c, payload))
    ensures stage != PreviewOnly && Safe(c, value, None, unexposed) && artifact == c.show(value)
  {
    var items := FirstPass(c, payload, unexposed);
    value, stage, artifact := Mapping(items), Whole, c.show(Mapping(items));
    if |artifact| <= ARTIFACT_BYTE_LIMIT {
      return;
    }
    var compact := CompactArtifact(c, items, unexposed);
    if compact.Some? {
      value, stage, artifact := compact.value, Compact, c.show(compact.value);
      if |artifact| <= ARTIFACT_BYTE_LIMIT {
        return;
      }
    }
    value, artifact := ReduceArtifact(c, items, essentialKeys, unexposed);
    stage := Reduced;
  }

  /** The sanitised payload, wrapped when it is no mapping. */
  method FirstPass(c: Config, payload: seq<Item>, ghost unexposed: bool) returns (items: seq<Item>)
    requires KeepsOwnKeys(c) && IncomingItems(payload) && (unexposed ==> UnexposedItems(c, payload))
    ensures SafeItems(c, items, unexposed)
    ensures var safe := Sanitize(c, Mapping(payload), None, 0, DEFAULT_LIMITS);
            items == if safe.Mapping? then safe.items else [Item("artifact", safe)]
  {
    IncomingIsReady(c, Mapping(payload));
    var safe := Sanitize(c, Mapping(payload), None, 0, DEFAULT_LIMITS);
    SanitizedIsSafe(c, payload, DEFAULT_LIMITS, unexposed, Some(Normalized(c, "artifact")));
    if safe.Mapping? {
      return safe.items;
    }
    SafePut(c, [], "artifact", safe, unexposed);
    items := [Item("artifact", safe)];
  }

  /** The second pass, under smaller limits. */
  method CompactArtifact(c: Config, items: seq<Item>, ghost unexposed: bool) returns (compact: Option<Value>)
    requires KeepsOwnKeys(c) && SafeItems(c, items, unexposed)
    ensures compact.Some? ==> Safe(c, compact.value, None, unexposed)
    ensures var r := Sanitize(c, Mapping(items), None, 0, Limits(64, 8000, 6));
            compact == if r.Mapping? then Some(Mapping(Flagged(r.items))) else None
  {
    var r := Sanitize(c, Mapping(items), None, 0, Limits(64, 8000, 6));
    SanitizedIsSafe(c, items, Limits(64, 8000, 6), unexposed, None);
    if r.Mapping? {
      FlaggedIsSafe(c, r.items, unexposed);
      return Some(Mapping(Flagged(r.items)));
    }
    compact := None;
  }

  /** The fallback of the essential keys. */
  method ReduceArtifact(c: Config, items: seq<Item>, essentialKeys: seq<string>, ghost unexposed: bool)
    returns (value: Value, artifact: string)
    requires KeepsOwnKeys(c) && SafeItems(c, items, unexposed)
    ensures Safe(c, value, None, unexposed) && artifact == c.show(value)
    ensures var bounded := Sanitize(c, Mapping(Essential(items, essentialKeys)), None, 0, Limits(24, 4000, 4));
            value == Mapping(Put(Flagged([]), "artifact", bounded))
  {
    var essential := Essential(items, essentialKeys);
    EssentialIsSafe(c, items, essentialKeys, unexposed);
    var bounded := Sanitize(c, Mapping(essential), None, 0, Limits(24, 4000, 4));
    SanitizedIsSafe(c, essential, Limits(24, 4000, 4), unexposed, Some(Normalized(c, "artifact")));
    FlaggedIsSafe(c, [], unexposed);
    SafePut(c, Flagged([]), "artifact", bounded, unexposed);
    value := Mapping(Put(Flagged([]), "artifact", bounded));
    artifact := c.show(value);
  }

  /** The loop that halves the preview until the artifact fits. */
  method BoundPreview(c: Config, start: string) returns (artifact: string, preview: string)
    requires |c.show(PreviewOf(""))| <= ARTIFACT_BYTE_LIMIT
    ensures |artifact| <= ARTIFACT_BYTE_LIMIT && preview <= start && artifact == c.show(PreviewOf(preview))
  {
    preview := start;
    artifact := c.show(PreviewOf(preview));
    while |artifact| > ARTIFACT_BYTE_LIMIT
      invariant preview <= start && artifact == c.show(PreviewOf(preview))
      decreases |preview|
    {
      assert preview != "";
      preview := preview[..|preview| / 2];
      artifact := c.show(PreviewOf(preview));
    }
  }

  // ---------------------------------------------------------------------
  // The rejected keys
  // ---------------------------------------------------------------------

  const DROPPED_KEYS: set<string> := {
    "channel_id", "continuation", "continuation_state", "discord_id", "encrypted_content", "guild_id",
    "hidden_reasoning", "image", "image_url", "image_urls", "images", "input_image", "message_id",
    "previous_response_id", "raw_request", "reasoning_content", "reasoning_summary", "request_payload", "response_id",
    "responses_output_items", "source_message_id", "source_message_url", "source_user_id", "user_id"}

  /** `_should_drop_key`. */
  predicate ShouldDrop(key: string) {
    || key in DROPPED_KEYS || EndsWith(key, "_request_json")
    || EndsWith(key, "_channel_id") || EndsWith(key, "_guild_id") || EndsWith(key, "_message_id")
      || EndsWith(key, "_user_id")
  }

  lemma NotADroppedKey(key: string)
    requires |key| >= 3 && key[0] != 'c' && key[0] != 'e' && key[0] != 'g' && key[0] != 'h' && key[0] != 'i'
    requires key[0] != 'm' && key[0] != 'p' && key[0] != 'r' && key[0] != 's' && key[0] != 'u'
      && (key[0] == 'd' ==> key[2] != 's')
    ensures key !in DROPPED_KEYS
  {
  }

  lemma NoRejectedSuffix(key: string)
    requires |key| >= 3 && key[|key| - 1] != 'n' && (key[|key| - 1] == 'd' ==> key[|key| - 2] != 'i')
    ensures !EndsWith(key, "_request_json") && !EndsWith(key, "_channel_id") && !EndsWith(key, "_guild_id")
    ensures !EndsWith(key, "_message_id") && !EndsWith(key, "_user_id")
  {
  }

  /** A key that lower casing leaves alone, and that starts and ends unlike every rejected one, is kept. */
  lemma OwnKeyIsKept(c: Config, key: string)
    requires c.drop == ShouldDrop && c.lower(key) == key && |key| >= 3 && !IsSpace(key[0]) && !IsSpace(key[|key| - 1])
    requires key[0] == '_' || key[0] == 'a' || key[0] == 'o' || (key[0] == 'd' && key[2] != 's')
    requires key[|key| - 1] != 'n' && (key[|key| - 1] == 'd' ==> key[|key| - 2] != 'i')
    ensures !Drops(c, key)
  {
    StripTight(key);
    NotADroppedKey(key);
    NoRejectedSuffix(key);
  }

  lemma OwnKeysOfSanitizer(c: Config)
    requires c.drop == ShouldDrop && c.lower(OMITTED_KEY) == OMITTED_KEY
    requires c.lower("diagnostic_truncated") == "diagnostic_truncated"
    ensures !Drops(c, OMITTED_KEY) && !Drops(c, "diagnostic_truncated")
  {
    OwnKeyIsKept(c, OMITTED_KEY);
    OwnKeyIsKept(c, "diagnostic_truncated");
  }

  lemma OwnKeysOfSerializer(c: Config)
    requires c.drop == ShouldDrop && c.lower("artifact_truncated") == "artifact_truncated"
    requires c.lower("original_size_bytes") == "original_size_bytes" && c.lower("artifact") == "artifact"
    ensures !Drops(c, "artifact_truncated") && !Drops(c, "original_size_bytes") && !Drops(c, "artifact")
  {
    OwnKeyIsKept(c, "artifact_truncated");
    OwnKeyIsKept(c, "original_size_bytes");
    OwnKeyIsKept(c, "artifact");
  }

  /** With the real table of rejected keys, the keys added by the sanitiser and the serializer are kept. */
  lemma OwnKeysAreKept(c: Config)
    requires c.drop == ShouldDrop && c.lower(OMITTED_KEY) == OMITTED_KEY
    requires c.lower("diagnostic_truncated") == "diagnostic_truncated"
      && c.lower("artifact_truncated") == "artifact_truncated"
    requires c.lower("original_size_bytes") == "original_size_bytes" && c.lower("artifact") == "artifact"
    ensures KeepsOwnKeys(c)
  {
    OwnKeysOfSanitizer(c);
    OwnKeysOfSerializer(c);
  }
}
