/** Metadata trees and their sanitizer. */
module Sanitizer {
  import opened Options
  import opened SensitiveKeys

  /** A metadata value; `Masked` stands for the privacy-preserving prefix of an address. */
  datatype Value =
    | Text(text: string)
    | Number(n: int)
    | Flag(b: bool)
    | Uuid(id: nat)
    | Masked(ip: Option<string>)
    | Null
    | Mapping(entries: seq<Entry>)
    | ListOf(items: seq<Value>)
    | TupleOf(items: seq<Value>)

  datatype Entry = Entry(key: string, value: Value)

  function SanitizeMetadata(entries: seq<Entry>): seq<Entry> {
    if entries == [] then []
    else
      var rest := SanitizeMetadata(entries[1..]);
      if IsSensitive(entries[0].key) then rest
      else [Entry(entries[0].key, SanitizeValue(entries[0].value))] + rest
  }

  function SanitizeItems(items: seq<Value>): (r: seq<Value>)
    ensures |r| == |items|
    ensures forall k :: 0 <= k < |items| ==> r[k] == SanitizeValue(items[k])
  {
    if items == [] then [] else [SanitizeValue(items[0])] + SanitizeItems(items[1..])
  }

  function SanitizeValue(v: Value): Value {
    match v
    case Mapping(entries) => Mapping(SanitizeMetadata(entries))
    case ListOf(items) => ListOf(SanitizeItems(items))
    case TupleOf(items) => ListOf(SanitizeItems(items))
    case _ => v
  }

  // ---------------------------------------------------------------- reading a tree by path

  datatype PathStep = Field(key: string) | Item(index: nat)

  function FieldOf(entries: seq<Entry>, key: string): Option<Value> {
    if entries == [] then None
    else if entries[0].key == key then Some(entries[0].value)
    else FieldOf(entries[1..], key)
  }

  function Child(v: Value, step: PathStep): Option<Value> {
    match step
    case Field(key) => if v.Mapping? then FieldOf(v.entries, key) else None
    case Item(k) => if (v.ListOf? || v.TupleOf?) && k < |v.items| then Some(v.items[k]) else None
  }

  function Lookup(v: Value, path: seq<PathStep>): Option<Value>
    decreases |path|
  {
    if path == [] then Some(v)
    else match Child(v, path[0])
      case None => None
      case Some(child) => Lookup(child, path[1..])
  }

  predicate PlainPath(path: seq<PathStep>) {
    forall k :: 0 <= k < |path| && path[k].Field? ==> !IsSensitive(path[k].key)
  }

  lemma {:induction false} FieldOfSanitized(entries: seq<Entry>, key: string)
    ensures FieldOf(SanitizeMetadata(entries), key) ==
              match FieldOf(entries, key)
              case Some(value) => if IsSensitive(key) then None else Some(SanitizeValue(value))
              case None => None
  {
    if entries != [] {
      FieldOfSanitized(entries[1..], key);
      var rest := SanitizeMetadata(entries[1..]);
      if !IsSensitive(entries[0].key) {
        assert SanitizeMetadata(entries)[1..] == rest;
      }
    }
  }

  /**
   * Sanitizing a tree removes exactly what lies behind a sensitive key: a path through plain keys
   * leads to the sanitized value it led to before, and no other path leads anywhere.
   */
  lemma {:induction false} SanitizedPaths(v: Value, path: seq<PathStep>)
    ensures Lookup(SanitizeValue(v), path) ==
              match Lookup(v, path)
              case Some(value) => if PlainPath(path) then Some(SanitizeValue(value)) else None
              case None => None
    decreases |path|
  {
    if path != [] {
      SanitizedChild(v, path[0]);
      PlainPathStep(path);
      var child := Child(v, path[0]);
      if child.Some? { SanitizedPaths(child.value, path[1..]); }
    }
  }

  /** A value without entries or items. */
  predicate Leaf(v: Value) {
    !v.Mapping? && !v.ListOf? && !v.TupleOf?
  }

  /** The entries in their order, without those under a sensitive key. */
  function PlainKeys(entries: seq<Entry>): seq<string> {
    if entries == [] then []
    else (if IsSensitive(entries[0].key) then [] else [entries[0].key]) + PlainKeys(entries[1..])
  }

  lemma {:induction false} KeysKept(entries: seq<Entry>)
    ensures |SanitizeMetadata(entries)| == |PlainKeys(entries)|
    ensures forall k :: 0 <= k < |PlainKeys(entries)| ==> SanitizeMetadata(entries)[k].key == PlainKeys(entries)[k]
  {
    if entries != [] { KeysKept(entries[1..]); }
  }

  /**
   * What a sanitized tree holds: a leaf is as it was, a mapping keeps its plain keys in their order, and
   * a list or tuple becomes a list of the same length.
   */
  lemma SanitizedShape(v: Value)
    ensures Leaf(v) ==> SanitizeValue(v) == v
    ensures v.Mapping? ==>
              && SanitizeValue(v).Mapping? && |SanitizeValue(v).entries| == |PlainKeys(v.entries)|
              && forall k :: 0 <= k < |PlainKeys(v.entries)| ==>
                   SanitizeValue(v).entries[k].key == PlainKeys(v.entries)[k]
    ensures v.ListOf? || v.TupleOf? ==> SanitizeValue(v).ListOf? && |SanitizeValue(v).items| == |v.items|
  {
    if v.Mapping? { KeysKept(v.entries); }
  }

  /** Every leaf behind plain keys is still there, unchanged. */
  lemma LeavesKept(v: Value, path: seq<PathStep>)
    requires PlainPath(path) && Lookup(v, path).Some? && Leaf(Lookup(v, path).value)
    ensures Lookup(SanitizeValue(v), path) == Lookup(v, path)
  {
    SanitizedPaths(v, path);
    SanitizedShape(Lookup(v, path).value);
  }

  predicate PlainStep(step: PathStep) {
    step.Field? ==> !IsSensitive(step.key)
  }

  lemma SanitizedChild(v: Value, step: PathStep)
    ensures Child(SanitizeValue(v), step) ==
              match Child(v, step)
              case Some(value) => if PlainStep(step) then Some(SanitizeValue(value)) else None
              case None => None
  {
    if step.Field? && v.Mapping? { FieldOfSanitized(v.entries, step.key); }
  }

  lemma PlainPathStep(path: seq<PathStep>)
    requires path != []
    ensures PlainPath(path) <==> PlainStep(path[0]) && PlainPath(path[1..])
  {
    assert forall k :: 0 < k < |path| ==> path[k] == path[1..][k - 1];
  }

  lemma {:induction false} SanitizeTwice(v: Value)
    ensures SanitizeValue(SanitizeValue(v)) == SanitizeValue(v)
    decreases v, 1
  {
    match v
    case Mapping(entries) => SanitizeMetadataTwice(entries);
    case ListOf(items) =>
      forall k | 0 <= k < |items| { SanitizeTwice(items[k]); }
      assert SanitizeItems(SanitizeItems(items)) == SanitizeItems(items);
    case TupleOf(items) =>
      forall k | 0 <= k < |items| { SanitizeTwice(items[k]); }
      assert SanitizeItems(SanitizeItems(items)) == SanitizeItems(items);
    case _ =>
  }

  lemma {:induction false} SanitizeMetadataTwice(entries: seq<Entry>)
    ensures SanitizeMetadata(SanitizeMetadata(entries)) == SanitizeMetadata(entries)
    decreases entries, 0
  {
    if entries != [] {
      SanitizeMetadataTwice(entries[1..]);
      if !IsSensitive(entries[0].key) {
        SanitizeTwice(entries[0].value);
        assert SanitizeMetadata(entries)[1..] == SanitizeMetadata(entries[1..]);
      }
    }
  }
}
