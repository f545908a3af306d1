/**
  The redaction engine: `ConfigObfuscator.obfuscate_config` and its inner
  `obfuscate_value`.

  The two places a string can sit are treated differently. A string that is
  the value of a mapping entry is replaced when the entry's KEY is sensitive;
  its own text is not looked at. A string that is an item of a list is
  replaced when its OWN text is sensitive. Mappings and lists are always
  descended into, whatever their key, and every other scalar is kept.
*/
module Obfuscator {
  import opened Patterns
  import opened Document

  /**
    The key test of the entry loop; the key must be a string. It holds exactly
    when the key contains one of the six words, bare or quoted, in any case,
    followed by white space and a colon.
  */
  function KeySensitive(k: Key): (r: bool)
    requires k.StrKey?
    ensures r <==> HasSensitiveLabel(k.name)
  {
    SensitiveIffLabel(k.name);
    Sensitive(k.name)
  }

  /**
    `b` is `a` with zero or more of its strings replaced by `ph`: the same
    node kinds everywhere, the same keys in the same order, lists of the same
    length, the same non-string scalars.
  */
  ghost predicate RedactedFrom(a: Node, b: Node, ph: string)
    decreases a
  {
    match a
    case Str(_) => b == a || b == Str(ph)
    case Scalar(_) => b == a
    case Map(es) =>
      && b.Map?
      && |b.entries| == |es|
      && forall i :: 0 <= i < |es| ==> b.entries[i].key == es[i].key && RedactedFrom(es[i].value, b.entries[i].value, ph)
    case List(xs) =>
      && b.List?
      && |b.items| == |xs|
      && forall i :: 0 <= i < |xs| ==> RedactedFrom(xs[i], b.items[i], ph)
  }

  /** `obfuscate_value`: a string is tested on its own text; containers are descended into. */
  function ObfuscateValue(v: Node, ph: string): (r: Node)
    requires WellKeyed(v)
    ensures RedactedFrom(v, r, ph)
    decreases v
  {
    match v
    case Str(s) => if Sensitive(s) then Str(ph) else v
    case Map(es) => Map(ObfuscateConfig(es, ph))
    case List(xs) => List(ObfuscateItems(xs, ph))
    case Scalar(_) => v
  }

  /** The list comprehension `[obfuscate_value(item) for item in value]`. */
  function ObfuscateItems(xs: seq<Node>, ph: string): (r: seq<Node>)
    requires forall i :: 0 <= i < |xs| ==> WellKeyed(xs[i])
    ensures |r| == |xs|
    ensures forall i :: 0 <= i < |xs| ==> RedactedFrom(xs[i], r[i], ph)
    decreases xs
  {
    seq(|xs|, i requires 0 <= i < |xs| => ObfuscateValue(xs[i], ph))
  }

  /** `obfuscate_config`: every entry of the mapping, in order. */
  function ObfuscateConfig(es: seq<Entry>, ph: string): (r: seq<Entry>)
    requires WellKeyedEntries(es)
    ensures |r| == |es|
    ensures forall i :: 0 <= i < |es| ==> r[i].key == es[i].key && RedactedFrom(es[i].value, r[i].value, ph)
    decreases es
  {
    seq(|es|, i requires 0 <= i < |es| => ObfuscateEntry(es[i], ph))
  }

  /** One round of the entry loop: a string value is tested by its key. */
  function ObfuscateEntry(e: Entry, ph: string): (r: Entry)
    requires WellKeyedEntry(e)
    ensures r.key == e.key && RedactedFrom(e.value, r.value, ph)
    decreases e
  {
    match e.value
    case Str(_) => if KeySensitive(e.key) then Entry(e.key, Str(ph)) else e
    case Map(m) => Entry(e.key, Map(ObfuscateConfig(m, ph)))
    case List(xs) => Entry(e.key, List(ObfuscateItems(xs, ph)))
    case Scalar(_) => e
  }

  /**
    The entry loop as it runs: each value is replaced in place, a nested
    mapping by a recursive call, a list by the comprehension, and a string
    value only when one of the patterns is found in its key.
  */
  method ObfuscateConfigInPlace(config: seq<Entry>, ph: string) returns (result: seq<Entry>)
    requires WellKeyedEntries(config)
    ensures result == ObfuscateConfig(config, ph)
    decreases config
  {
    result := config;
    var i := 0;
    while i < |result|
      invariant 0 <= i <= |result| == |config|
      invariant forall j :: 0 <= j < i ==> result[j] == ObfuscateEntry(config[j], ph)
      invariant forall j :: i <= j < |result| ==> result[j] == config[j]
    {
      var key, value := result[i].key, result[i].value;
      assert config[i] == Entry(key, value) && WellKeyed(value);
      match value {
        case Str(_) =>
          var hit := AnyPatternFound(key.name);
          if hit {
            result := result[i := Entry(key, Str(ph))];
          }
        case Map(m) =>
          var inner := ObfuscateConfigInPlace(m, ph);
          result := result[i := Entry(key, Map(inner))];
        case List(xs) =>
          result := result[i := Entry(key, List(ObfuscateItems(xs, ph)))];
        case Scalar(_) =>
      }
      i := i + 1;
    }
  }

  // ---------------------------------------------------------------------
  // The tree after redaction is again one the engine accepts.

  lemma {:induction false} RedactedKeepsWellKeyed(a: Node, b: Node, ph: string)
    requires WellKeyed(a) && RedactedFrom(a, b, ph)
    ensures WellKeyed(b)
    decreases a
  {
    match a
    case Str(_) =>
    case Scalar(_) =>
    case Map(es) =>
      forall i | 0 <= i < |es|
        ensures WellKeyedEntry(b.entries[i])
      {
        RedactedKeepsWellKeyed(es[i].value, b.entries[i].value, ph);
      }
    case List(xs) =>
      forall i | 0 <= i < |xs|
        ensures WellKeyed(b.items[i])
      {
        RedactedKeepsWellKeyed(xs[i], b.items[i], ph);
      }
  }

  // ---------------------------------------------------------------------
  // Idempotence: a slot that is blanked receives the placeholder whatever
  // its text, and a blanked list item stays blanked whether or not the
  // placeholder itself looks sensitive.

  lemma {:induction false} ObfuscateValueIdempotent(v: Node, ph: string)
    requires WellKeyed(v)
    ensures WellKeyed(ObfuscateValue(v, ph))
    ensures ObfuscateValue(ObfuscateValue(v, ph), ph) == ObfuscateValue(v, ph)
    decreases v
  {
    RedactedKeepsWellKeyed(v, ObfuscateValue(v, ph), ph);
    match v
    case Str(_) =>
    case Scalar(_) =>
    case Map(es) => ObfuscateConfigIdempotent(es, ph);
    case List(xs) => ObfuscateItemsIdempotent(xs, ph);
  }

  lemma {:induction false} ObfuscateItemsIdempotent(xs: seq<Node>, ph: string)
    requires forall i :: 0 <= i < |xs| ==> WellKeyed(xs[i])
    ensures forall i :: 0 <= i < |xs| ==> WellKeyed(ObfuscateItems(xs, ph)[i])
    ensures ObfuscateItems(ObfuscateItems(xs, ph), ph) == ObfuscateItems(xs, ph)
    decreases xs
  {
    var once := ObfuscateItems(xs, ph);
    forall i | 0 <= i < |xs|
      ensures WellKeyed(once[i]) && ObfuscateValue(once[i], ph) == once[i]
    {
      ObfuscateValueIdempotent(xs[i], ph);
    }
  }

  lemma {:induction false} ObfuscateConfigIdempotent(es: seq<Entry>, ph: string)
    requires WellKeyedEntries(es)
    ensures WellKeyedEntries(ObfuscateConfig(es, ph))
    ensures ObfuscateConfig(ObfuscateConfig(es, ph), ph) == ObfuscateConfig(es, ph)
    decreases es
  {
    var once := ObfuscateConfig(es, ph);
    RedactedKeepsWellKeyed(Map(es), Map(once), ph);
    forall i | 0 <= i < |es|
      ensures ObfuscateEntry(once[i], ph) == once[i]
    {
      ObfuscateEntryIdempotent(es[i], ph);
    }
  }

  lemma {:induction false} ObfuscateEntryIdempotent(e: Entry, ph: string)
    requires WellKeyedEntry(e)
    ensures WellKeyedEntry(ObfuscateEntry(e, ph))
    ensures ObfuscateEntry(ObfuscateEntry(e, ph), ph) == ObfuscateEntry(e, ph)
    decreases e
  {
    RedactedKeepsWellKeyed(e.value, ObfuscateEntry(e, ph).value, ph);
    match e.value
    case Str(_) =>
    case Scalar(_) =>
    case Map(m) => ObfuscateConfigIdempotent(m, ph);
    case List(xs) => ObfuscateItemsIdempotent(xs, ph);
  }

  /** Running `obfuscate_config` twice gives what running it once gives. */
  lemma {:induction false} ObfuscateIdempotent(config: seq<Entry>, ph: string)
    requires WellKeyedEntries(config)
    ensures WellKeyedEntries(ObfuscateConfig(config, ph))
    ensures ObfuscateConfig(ObfuscateConfig(config, ph), ph) == ObfuscateConfig(config, ph)
  {
    ObfuscateConfigIdempotent(config, ph);
  }

  // ---------------------------------------------------------------------
  // The rules, stated at every position of the tree: a position is a path
  // of steps from the root mapping.

  /** Inside an entry, anything but a string is treated as `obfuscate_value` treats it. */
  lemma EntryOfContainer(e: Entry, ph: string)
    requires !e.value.Str? && WellKeyed(e.value)
    ensures ObfuscateEntry(e, ph).value == ObfuscateValue(e.value, ph)
  {
  }

  /** At a position holding anything but a string, the result holds that node, obfuscated. */
  lemma {:induction false} LookupNonString(v: Node, path: seq<Step>, n: Node, ph: string)
    requires WellKeyed(v)
    requires Lookup(v, path) == Some(n) && !n.Str?
    ensures WellKeyed(n)
    ensures Lookup(ObfuscateValue(v, ph), path) == Some(ObfuscateValue(n, ph))
    decreases |path|
  {
    WellKeyedBelowPath(v, path);
    if path != [] {
      var c := Child(v, path[0]).value;
      assert Lookup(v, path) == Lookup(c, path[1..]);
      assert !c.Str?;
      match path[0] {
        case AtEntry(i) =>
          var es := v.entries;
          EntryOfContainer(es[i], ph);
          assert Child(ObfuscateValue(v, ph), path[0]) == Some(ObfuscateValue(c, ph));
        case AtItem(i) =>
          assert Child(ObfuscateValue(v, ph), path[0]) == Some(ObfuscateValue(c, ph));
      }
      LookupNonString(c, path[1..], n, ph);
    }
  }

  /**
    A string stored directly under a mapping key, at any depth, becomes the
    placeholder exactly when the KEY is sensitive; its own text plays no part.
  */
  lemma {:induction false} MappingStringRule(root: seq<Entry>, path: seq<Step>, es: seq<Entry>, i: nat, ph: string)
    requires WellKeyedEntries(root)
    requires Lookup(Map(root), path) == Some(Map(es))
    requires i < |es| && es[i].value.Str?
    ensures es[i].key.StrKey?
    ensures Lookup(Map(ObfuscateConfig(root, ph)), path + [AtEntry(i)]) ==
            Some(if Sensitive(es[i].key.name) then Str(ph) else es[i].value)
  {
    LookupNonString(Map(root), path, Map(es), ph);
    assert WellKeyedEntry(es[i]);
    LookupSnoc(Map(ObfuscateConfig(root, ph)), path, AtEntry(i));
    assert Child(Map(ObfuscateConfig(es, ph)), AtEntry(i)) == Some(ObfuscateEntry(es[i], ph).value);
  }

  /**
    A string item of a list, at any depth and in lists nested in lists,
    becomes the placeholder exactly when its OWN text is sensitive.
  */
  lemma {:induction false} ListStringRule(root: seq<Entry>, path: seq<Step>, xs: seq<Node>, i: nat, ph: string)
    requires WellKeyedEntries(root)
    requires Lookup(Map(root), path) == Some(List(xs))
    requires i < |xs| && xs[i].Str?
    ensures Lookup(Map(ObfuscateConfig(root, ph)), path + [AtItem(i)]) ==
            Some(if Sensitive(xs[i].s) then Str(ph) else xs[i])
  {
    LookupNonString(Map(root), path, List(xs), ph);
    LookupSnoc(Map(ObfuscateConfig(root, ph)), path, AtItem(i));
    assert Child(List(ObfuscateItems(xs, ph)), AtItem(i)) == Some(ObfuscateValue(xs[i], ph));
  }

  /**
    A mapping or list stored under a key is never blanked, even when the key
    is sensitive: a mapping is obfuscated entry by entry, a list item by item.
  */
  lemma {:induction false} ContainersUnderAnyKey(root: seq<Entry>, path: seq<Step>, es: seq<Entry>, i: nat, ph: string)
    requires WellKeyedEntries(root)
    requires Lookup(Map(root), path) == Some(Map(es))
    requires i < |es| && (es[i].value.Map? || es[i].value.List?)
    ensures WellKeyed(es[i].value)
    ensures es[i].value.Map? ==>
      Lookup(Map(ObfuscateConfig(root, ph)), path + [AtEntry(i)]) == Some(Map(ObfuscateConfig(es[i].value.entries, ph)))
    ensures es[i].value.List? ==>
      Lookup(Map(ObfuscateConfig(root, ph)), path + [AtEntry(i)]) == Some(List(ObfuscateItems(es[i].value.items, ph)))
  {
    LookupSnoc(Map(root), path, AtEntry(i));
    LookupNonString(Map(root), path + [AtEntry(i)], es[i].value, ph);
  }

  /** Numbers, booleans, null and other non-string scalars come through unchanged, wherever they sit. */
  lemma {:induction false} ScalarsPassThrough(root: seq<Entry>, path: seq<Step>, a: Atom, ph: string)
    requires WellKeyedEntries(root)
    requires Lookup(Map(root), path) == Some(Scalar(a))
    ensures Lookup(Map(ObfuscateConfig(root, ph)), path) == Some(Scalar(a))
  {
    LookupNonString(Map(root), path, Scalar(a), ph);
  }

  /**
    Nothing but strings changes: every path of the input exists in the
    output and the other way round, and the nodes found there are related by
    `RedactedFrom`.
  */
  lemma {:induction false} RedactedLookup(a: Node, b: Node, path: seq<Step>, ph: string)
    requires RedactedFrom(a, b, ph)
    ensures Lookup(a, path).Some? <==> Lookup(b, path).Some?
    ensures Lookup(a, path).Some? ==> RedactedFrom(Lookup(a, path).value, Lookup(b, path).value, ph)
    decreases |path|
  {
    if path != [] {
      match Child(a, path[0])
      case None =>
        assert Child(b, path[0]).None?;
      case Some(c) =>
        var d := Child(b, path[0]).value;
        RedactedLookup(c, d, path[1..], ph);
    }
  }

  /** The result of `obfuscate_config` has the shape of its input, position by position. */
  lemma ShapePreserved(root: seq<Entry>, path: seq<Step>, ph: string)
    requires WellKeyedEntries(root)
    ensures Lookup(Map(root), path).Some? <==> Lookup(Map(ObfuscateConfig(root, ph)), path).Some?
    ensures Lookup(Map(root), path).Some? ==>
      RedactedFrom(Lookup(Map(root), path).value, Lookup(Map(ObfuscateConfig(root, ph)), path).value, ph)
  {
    RedactedLookup(Map(root), Map(ObfuscateConfig(root, ph)), path, ph);
  }

  // ---------------------------------------------------------------------
  // A document with nothing sensitive in it comes back as it went in.

  /**
    Nothing the engine tests is sensitive: no key above a string value, and
    no string outside a mapping entry (a list item, or the tree itself). The
    text of a string value under a key is not looked at, as in the engine.
  */
  ghost predicate Clean(n: Node)
    decreases n
  {
    match n
    case Str(s) => !Sensitive(s)
    case Scalar(_) => true
    case Map(es) =>
      forall i :: 0 <= i < |es| ==>
        if es[i].value.Str? then (es[i].key.StrKey? ==> !Sensitive(es[i].key.name)) else Clean(es[i].value)
    case List(xs) => forall i :: 0 <= i < |xs| ==> Clean(xs[i])
  }

  lemma {:induction false} CleanUnchanged(v: Node, ph: string)
    requires WellKeyed(v) && Clean(v)
    ensures ObfuscateValue(v, ph) == v
    decreases v
  {
    match v
    case Str(_) =>
    case Scalar(_) =>
    case Map(es) =>
      forall i | 0 <= i < |es|
        ensures ObfuscateEntry(es[i], ph) == es[i]
      {
        if !es[i].value.Str? {
          CleanUnchanged(es[i].value, ph);
        }
      }
      assert ObfuscateConfig(es, ph) == es;
    case List(xs) =>
      forall i | 0 <= i < |xs|
        ensures ObfuscateValue(xs[i], ph) == xs[i]
      {
        CleanUnchanged(xs[i], ph);
      }
      assert ObfuscateItems(xs, ph) == xs;
  }

  // ---------------------------------------------------------------------
  // Worked documents.

  /**
    `{"db": {"password": "hunter2", "host": "localhost"}}` comes back
    unchanged: the key `password` holds no colon, so no pattern finds it.
  */
  lemma BareKeyNotRedacted(ph: string)
    ensures var db := Map([Entry(StrKey("password"), Str("hunter2")), Entry(StrKey("host"), Str("localhost"))]);
      ObfuscateConfig([Entry(StrKey("db"), db)], ph) == [Entry(StrKey("db"), db)]
  {
    SensitiveNeedsColon("password");
    SensitiveNeedsColon("host");
    var db := [Entry(StrKey("password"), Str("hunter2")), Entry(StrKey("host"), Str("localhost"))];
    assert ObfuscateConfig(db, ph) == db;
  }

  /** A key that carries its own colon, such as `Token :`, does blank its string value. */
  lemma ColonKeyRedacted(ph: string)
    ensures ObfuscateConfig([Entry(StrKey("Token :"), Str("abc")), Entry(StrKey("port"), Scalar(Int(5432)))], ph)
         == [Entry(StrKey("Token :"), Str(ph)), Entry(StrKey("port"), Scalar(Int(5432)))]
  {
    LabelGivesMatch("token", false, "Token :", 0, 6);
    SensitiveKeyBlanks("Token :", "abc", ph);
  }

  lemma SensitiveKeyBlanks(k: string, t: string, ph: string)
    requires Sensitive(k)
    ensures ObfuscateConfig([Entry(StrKey(k), Str(t)), Entry(StrKey("port"), Scalar(Int(5432)))], ph)
         == [Entry(StrKey(k), Str(ph)), Entry(StrKey("port"), Scalar(Int(5432)))]
  {
  }

  /** `{"note": "password: hunter2"}` is kept: under a key only the key is tested. */
  lemma SensitiveTextUnderPlainKey(ph: string)
    ensures ObfuscateConfig([Entry(StrKey("note"), Str("password: hunter2"))], ph)
         == [Entry(StrKey("note"), Str("password: hunter2"))]
  {
  }

  /** `{"notes": ["secret: abc", "normal text"]}`: the first item is blanked, the second kept, order kept. */
  lemma ListItemsTestedByText(ph: string)
    ensures ObfuscateConfig([Entry(StrKey("notes"), List([Str("secret: abc"), Str("normal text")]))], ph)
         == [Entry(StrKey("notes"), List([Str(ph), Str("normal text")]))]
  {
    TwoItems(ph);
    ListUnderKey([Str("secret: abc"), Str("normal text")], ph);
  }

  lemma TwoItems(ph: string)
    ensures ObfuscateItems([Str("secret: abc"), Str("normal text")], ph) == [Str(ph), Str("normal text")]
  {
    LabelledItemBlanked(ph);
    PlainItemKept(ph);
  }

  lemma LabelledItemBlanked(ph: string)
    ensures ObfuscateValue(Str("secret: abc"), ph) == Str(ph)
  {
    LabelGivesMatch("secret", false, "secret: abc", 0, 6);
  }

  lemma PlainItemKept(ph: string)
    ensures ObfuscateValue(Str("normal text"), ph) == Str("normal text")
  {
  }

  lemma ListUnderKey(xs: seq<Node>, ph: string)
    requires forall i :: 0 <= i < |xs| ==> WellKeyed(xs[i])
    ensures ObfuscateConfig([Entry(StrKey("notes"), List(xs))], ph) == [Entry(StrKey("notes"), List(ObfuscateItems(xs, ph)))]
  {
  }
}
