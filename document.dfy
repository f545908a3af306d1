/**
  The loaded configuration document: what `yaml.safe_load` or `json.loads`
  returns, as a tree of mappings, lists and scalars.
*/
module Document {

  datatype Option<T> = None | Some(value: T)

  /**
    A scalar that is not a string. The engine passes these through untouched;
    only their truth value matters, for the root of a run. `Other` stands for
    the remaining scalars a loader can produce (dates, bytes, NaN).
  */
  datatype Atom = Null | Bool(b: bool) | Int(i: int) | Float(f: real) | Other(truthy: bool)

  /** A mapping key: usually a string, but a YAML key can be any scalar. */
  datatype Key = StrKey(name: string) | AtomKey(atom: Atom)

  datatype Node =
    | Str(s: string)
    | Scalar(atom: Atom)
    | Map(entries: seq<Entry>)
    | List(items: seq<Node>)

  /** One key/value pair of a mapping; a mapping keeps its entries in insertion order. */
  datatype Entry = Entry(key: Key, value: Node)

  /**
    Python's truth value of a loaded document (`if config:`): false exactly
    for `None`, `False`, zero, the empty string and the empty containers.
  */
  function Truthy(n: Node): (r: bool)
    ensures !r <==>
      || n == Scalar(Null) || n == Scalar(Bool(false)) || n == Scalar(Int(0)) || n == Scalar(Float(0.0))
      || n == Scalar(Other(false)) || n == Str("") || n == Map([]) || n == List([])
  {
    match n
    case Str(s) => s != ""
    case Map(es) => es != []
    case List(xs) => xs != []
    case Scalar(a) =>
      match a
      case Null => false
      case Bool(b) => b
      case Int(i) => i != 0
      case Float(f) => f != 0.0
      case Other(t) => t
  }

  /**
    Every mapping of the tree has a string key wherever its value is a
    string: the engine hands such keys to `re.search`, which raises on
    anything but a string.
  */
  predicate WellKeyed(n: Node)
    decreases n
  {
    match n
    case Map(es) => forall i :: 0 <= i < |es| ==> (es[i].value.Str? ==> es[i].key.StrKey?) && WellKeyed(es[i].value)
    case List(xs) => forall i :: 0 <= i < |xs| ==> WellKeyed(xs[i])
    case _ => true
  }

  /** The entries of a mapping the engine can process. */
  predicate WellKeyedEntries(es: seq<Entry>)
  {
    WellKeyed(Map(es))
  }

  /** One entry the engine can process. */
  predicate WellKeyedEntry(e: Entry)
  {
    (e.value.Str? ==> e.key.StrKey?) && WellKeyed(e.value)
  }

  /** The mapping `n` itself (not its sub-trees) has a string key over every string value. */
  predicate KeyedHere(n: Node)
  {
    n.Map? ==> forall i :: 0 <= i < |n.entries| ==> n.entries[i].value.Str? ==> n.entries[i].key.StrKey?
  }

  /** One step down the tree: the value of a mapping's i-th entry, or a list's i-th item. */
  datatype Step = AtEntry(i: nat) | AtItem(i: nat)

  function Child(n: Node, step: Step): (r: Option<Node>)
    ensures r.Some? ==> r.value < n
  {
    match step
    case AtEntry(i) => if n.Map? && i < |n.entries| then Some(n.entries[i].value) else None
    case AtItem(i) => if n.List? && i < |n.items| then Some(n.items[i]) else None
  }

  /** The node a path of steps leads to from `n`, if the path exists. */
  function Lookup(n: Node, path: seq<Step>): Option<Node>
    decreases |path|
  {
    if path == [] then Some(n)
    else
      match Child(n, path[0])
      case None => None
      case Some(c) => Lookup(c, path[1..])
  }

  /** Following `path + [step]` is following `path`, then taking `step`. */
  lemma {:induction false} LookupSnoc(n: Node, path: seq<Step>, step: Step)
    ensures Lookup(n, path + [step]) ==
            match Lookup(n, path)
            case None => None
            case Some(p) => Child(p, step)
    decreases |path|
  {
    if path == [] {
      assert [step][1..] == [];
    } else {
      assert (path + [step])[1..] == path[1..] + [step];
      match Child(n, path[0])
      case None =>
      case Some(c) => LookupSnoc(c, path[1..], step);
    }
  }

  /** `WellKeyed` holds of a tree exactly when every mapping found at any path is keyed over its strings. */
  lemma {:induction false} WellKeyedAtEveryPath(n: Node)
    ensures WellKeyed(n) ==> forall path :: Lookup(n, path).Some? ==> KeyedHere(Lookup(n, path).value)
    ensures (forall path :: Lookup(n, path).Some? ==> KeyedHere(Lookup(n, path).value)) ==> WellKeyed(n)
    decreases n
  {
    if WellKeyed(n) {
      forall path | Lookup(n, path).Some?
        ensures KeyedHere(Lookup(n, path).value)
      {
        WellKeyedBelowPath(n, path);
      }
    }
    if forall path :: Lookup(n, path).Some? ==> KeyedHere(Lookup(n, path).value) {
      assert Lookup(n, []) == Some(n);
      assert KeyedHere(n);
      match n {
        case Str(_) =>
        case Scalar(_) =>
        case Map(es) =>
          forall i | 0 <= i < |es|
            ensures WellKeyed(es[i].value)
          {
            forall path | Lookup(es[i].value, path).Some?
              ensures KeyedHere(Lookup(es[i].value, path).value)
            {
              LookupCons(n, AtEntry(i), path);
            }
            WellKeyedAtEveryPath(es[i].value);
          }
        case List(xs) =>
          forall i | 0 <= i < |xs|
            ensures WellKeyed(xs[i])
          {
            forall path | Lookup(xs[i], path).Some?
              ensures KeyedHere(Lookup(xs[i], path).value)
            {
              LookupCons(n, AtItem(i), path);
            }
            WellKeyedAtEveryPath(xs[i]);
          }
      }
    }
  }

  /** The sub-tree at any path of a well-keyed tree is well-keyed. */
  lemma {:induction false} WellKeyedBelowPath(n: Node, path: seq<Step>)
    requires WellKeyed(n) && Lookup(n, path).Some?
    ensures WellKeyed(Lookup(n, path).value)
    decreases |path|
  {
    if path != [] {
      var c := Child(n, path[0]).value;
      WellKeyedBelowPath(c, path[1..]);
    }
  }

  /** Following `[step] + path` is taking `step`, then following `path`. */
  lemma LookupCons(n: Node, step: Step, path: seq<Step>)
    ensures Lookup(n, [step] + path) == match Child(n, step) case None => None case Some(c) => Lookup(c, path)
  {
    assert ([step] + path)[0] == step && ([step] + path)[1..] == path;
  }
}
