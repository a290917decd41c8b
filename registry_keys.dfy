/**
  The registry as the settings loader sees it: a tree of keys, each holding
  named values of some registry value kind and named sub-keys. A key is a
  value here: the loader only reads the tree.
 */
module RegistryKeys {
  import opened Wrappers

  /** The registry value kinds other than String and DWord (RegistryValueKind). */
  datatype OtherKind = ExpandString | Binary | MultiString | QWord | Unknown | NoKind

  /** RegistryValueKind, with the two kinds the loader accepts singled out. */
  datatype ValueKind = String | DWord | Other(other: OtherKind)

  /** A stored value: a string, a 32-bit number, or data of some other kind. */
  datatype RegValue = StringValue(s: string) | DWordValue(n: int) | OtherValue(kind: OtherKind)

  function KindOf(v: RegValue): ValueKind
  {
    match v
    case StringValue(_) => String
    case DWordValue(_) => DWord
    case OtherValue(k) => Other(k)
  }

  /**
    A key: the value names in enumeration order, the values by name and the
    sub-keys by name. A listed name need not be stored in `values`; such a
    name reads as a missing value of Unknown kind.
   */
  datatype Key = Key(valueNames: seq<string>, values: map<string, RegValue>, subKeys: map<string, Key>)

  /** `OpenSubKey(name)`: the sub-key, or none (null) when it does not exist. */
  function OpenSubKey(k: Key, name: string): Option<Key>
  {
    if name in k.subKeys then Some(k.subKeys[name]) else None
  }

  /** `GetValue(name)`: the stored value, or none (null) when there is no such value. */
  function GetValue(k: Key, name: string): Option<RegValue>
  {
    if name in k.values then Some(k.values[name]) else None
  }

  /** `GetValueKind(name)`: the kind of the stored value, and Unknown for a missing one. */
  function GetValueKind(k: Key, name: string): ValueKind
  {
    match GetValue(k, name)
    case Some(v) => KindOf(v)
    case None => Other(Unknown)
  }

  /** A String or DWord kind reported for a name means the name holds a value of that kind. */
  lemma AcceptedKindIsStored(k: Key, name: string)
    requires GetValueKind(k, name) == String || GetValueKind(k, name) == DWord
    ensures GetValue(k, name).Some?
    ensures KindOf(GetValue(k, name).value) == GetValueKind(k, name)
  {
  }

  /** Opening the segments of `path` one after another, from `k`. */
  function Descend(k: Key, path: seq<string>): Option<Key>
  {
    if path == [] then Some(k)
    else
      match OpenSubKey(k, path[0])
      case None => None
      case Some(child) => Descend(child, path[1..])
  }

  /** Descending one more segment opens it in the key reached so far. */
  lemma {:induction false} DescendSnoc(k: Key, path: seq<string>, name: string)
    ensures Descend(k, path + [name])
         == match Descend(k, path)
            case None => None
            case Some(parent) => OpenSubKey(parent, name)
  {
    if path == [] {
      assert [] + [name] == [name];
      assert Descend(k, [name]) == match OpenSubKey(k, name) case None => None case Some(c) => Descend(c, []);
    } else {
      assert (path + [name])[0] == path[0];
      assert (path + [name])[1..] == path[1..] + [name];
      match OpenSubKey(k, path[0])
      case None =>
      case Some(child) =>
        DescendSnoc(child, path[1..], name);
    }
  }

  /** Once a segment is missing, no longer path is found either. */
  lemma {:induction false} DescendMissingExtends(k: Key, path: seq<string>, rest: seq<string>)
    requires Descend(k, path) == None
    ensures Descend(k, path + rest) == None
  {
    assert path != [];
    assert (path + rest)[0] == path[0];
    assert (path + rest)[1..] == path[1..] + rest;
    match OpenSubKey(k, path[0])
    case None =>
    case Some(child) =>
      DescendMissingExtends(child, path[1..], rest);
  }

  /** Descending along `p + q` is descending along `p`, then along `q`. */
  lemma {:induction false} DescendAppend(k: Key, p: seq<string>, q: seq<string>)
    ensures Descend(k, p + q)
         == match Descend(k, p)
            case None => None
            case Some(mid) => Descend(mid, q)
  {
    if p == [] {
      assert p + q == q;
    } else {
      assert (p + q)[0] == p[0];
      assert (p + q)[1..] == p[1..] + q;
      match OpenSubKey(k, p[0])
      case None =>
      case Some(child) =>
        DescendAppend(child, p[1..], q);
    }
  }

  /** A chain of single sub-keys named by `path`, ending in `leaf` (the test fixtures' hierarchy). */
  function Chain(path: seq<string>, leaf: Key): (r: Key)
    ensures Descend(r, path) == Some(leaf)
  {
    if path == [] then leaf
    else Key([], map[], map[path[0] := Chain(path[1..], leaf)])
  }
}
