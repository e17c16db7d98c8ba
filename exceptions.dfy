/** Exceptions as the error plugins see them, and the extraction policy both
    error plugins share: copying the exception's `Data` entries into the error
    record, projecting its non-standard public properties into one "extra
    properties" entry under snake_case names, and marking the `Data`
    dictionary as processed with the "@exceptionless" key. */
module Exceptions {
  import opened Models
  import opened Wildcard

  /** Identifies one exception instance (object identity). */
  type ExnId = nat

  /** The declared key type of an exception's `Data` dictionary: a non-generic
      dictionary, or a generic one keyed by object, string, a primitive, bool,
      Guid, an enum, a struct, the structured-payload interface or some other
      class. */
  datatype KeyType =
    | NonGeneric | ObjectKey | StringKey | IntKey | BoolKey | GuidKey
    | EnumKey | StructKey | DataPayloadKey | ClassKey

  /** A `Data` dictionary: its key type and its entries, each under the text of
      its key (`ToString()` of the key); `None` is a null value. */
  datatype DataDict = DataDict(keyType: KeyType, entries: map<string, Option<Value>>)

  /** A public property of the exception's type with its current value. */
  datatype Property = Property(name: string, value: Option<Value>)

  /** An exception instance.  `inners` is the inner-exception list: at most one
      element (`InnerException`) for an ordinary exception, the
      `InnerExceptions` list for an aggregate one.  Its `Data` dictionary is not
      part of the value: it is mutable and lives in a table keyed by `id`. */
  datatype Exn = Exn(
    id: ExnId,
    typeName: string,
    message: string,
    properties: seq<Property>,
    inners: seq<Exn>,
    isAggregate: bool)

  /** Number of exception nodes in the graph rooted at `e`. */
  function Size(e: Exn): (n: nat)
    ensures n >= 1
  {
    1 + SizeOfAll(e.inners)
  }

  function SizeOfAll(es: seq<Exn>): nat {
    if es == [] then 0 else Size(es[0]) + SizeOfAll(es[1..])
  }

  function OptionSize(e: Option<Exn>): nat {
    if e.None? then 0 else Size(e.value)
  }

  /** Every inner exception is a strictly smaller graph than its container. */
  lemma {:induction false} InnerSmaller(e: Exn, i: nat)
    requires i < |e.inners|
    ensures Size(e.inners[i]) < Size(e)
  {
    ElementSmaller(e.inners, i);
  }

  lemma {:induction false} ElementSmaller(es: seq<Exn>, i: nat)
    requires i < |es|
    ensures Size(es[i]) <= SizeOfAll(es)
    decreases |es|
  {
    if i > 0 {
      ElementSmaller(es[1..], i - 1);
    }
  }

  // ---------------------------------------------------------------------
  // The "already processed" marker

  const MarkerKey := "@exceptionless"

  /** The marker can be written only when a string key fits the dictionary's
      key type: a non-generic dictionary, or one keyed by object or string. */
  predicate CanMarkProcessed(d: DataDict) {
    d.keyType.NonGeneric? || d.keyType.ObjectKey? || d.keyType.StringKey?
  }

  predicate IsProcessed(data: Option<DataDict>) {
    data.Some? && MarkerKey in data.value.entries
  }

  /** Writes the marker key, with a null value, into the dictionary when its
      key type admits it; a null or unsuitable dictionary is left alone. */
  function MarkProcessed(data: Option<DataDict>): (r: Option<DataDict>)
    ensures r.Some? <==> data.Some?
    ensures IsProcessed(r) <==> (data.Some? && (CanMarkProcessed(data.value) || IsProcessed(data)))
    ensures data.Some? ==> r.value.keyType == data.value.keyType
    ensures data.Some? ==> forall k :: k != MarkerKey ==>
              (k in r.value.entries <==> k in data.value.entries)
              && (k in data.value.entries ==> r.value.entries[k] == data.value.entries[k])
  {
    if data.Some? && CanMarkProcessed(data.value) then
      Some(data.value.(entries := data.value.entries[MarkerKey := None]))
    else
      data
  }

  // ---------------------------------------------------------------------
  // Copying `Data` entries

  /** The standard members of an exception, never copied or projected. */
  const ExceptionExclusions: seq<string> := [
    MarkerKey, "Data", "HelpLink", "ExceptionContext", "InnerExceptions",
    "InnerException", "Errors", "Types", "Message", "Source", "StackTrace",
    "TargetSite", "HResult", "Entries", "StateEntries", "PersistedState", "Results"]

  /** Whether a `Data` entry is copied: its key text is non-empty and matches
      no exclusion, and its value is not null. */
  predicate Copies(d: DataDict, k: string, exclusions: seq<string>)
    requires k in d.entries
  {
    k != "" && !AnyWildcardMatches(k, exclusions) && d.entries[k].Some?
  }

  /** The entries of a `Data` dictionary that go into the error's data map. */
  function CopyData(data: Option<DataDict>, exclusions: seq<string>): (r: map<string, Value>)
    ensures data.None? ==> r == map[]
    ensures data.Some? ==> forall k :: k in r <==> k in data.value.entries && Copies(data.value, k, exclusions)
    ensures forall k :: k in r ==> data.Some? && k in data.value.entries && data.value.entries[k] == Some(r[k])
  {
    if data.None? then map[]
    else
      var d := data.value;
      map k | k in d.entries && Copies(d, k, exclusions) :: d.entries[k].value
  }

  /** Writing the marker never changes what is copied, since the marker key is
      one of the standard exclusions. */
  lemma CopyIgnoresMarker(data: Option<DataDict>, exclusions: seq<string>)
    ensures CopyData(MarkProcessed(data), ExceptionExclusions + exclusions)
         == CopyData(data, ExceptionExclusions + exclusions)
  {
    var all := ExceptionExclusions + exclusions;
    assert all[0] == MarkerKey;
    assert IsPatternMatch(MarkerKey, MarkerKey) by {
      assert ShapeOf(MarkerKey) == Exact(MarkerKey);
    }
    assert AnyWildcardMatches(MarkerKey, all);
    var a, b := CopyData(MarkProcessed(data), all), CopyData(data, all);
    assert forall k :: k in a <==> k in b;
  }

  // ---------------------------------------------------------------------
  // Extra properties

  predicate IsUpper(c: char) { 'A' <= c <= 'Z' }

  /** Lower-case words joined by underscores: every upper-case letter is
      lowered and, unless it starts the name or follows an underscore,
      preceded by an underscore ("RandomValue" becomes "random_value"). */
  function SnakeCase(name: string): (r: string)
    ensures |r| >= |name|
    ensures forall i :: 0 <= i < |r| ==> !IsUpper(r[i])
  {
    SnakeFrom(name, 0)
  }

  function SnakeFrom(name: string, i: nat): (r: string)
    requires i <= |name|
    ensures |r| >= |name| - i
    ensures forall j :: 0 <= j < |r| ==> !IsUpper(r[j])
    decreases |name| - i
  {
    if i == |name| then ""
    else
      var c := name[i];
      var piece := if !IsUpper(c) then [c]
                   else if i > 0 && name[i - 1] != '_' then ['_', LowerChar(c)]
                   else [LowerChar(c)];
      piece + SnakeFrom(name, i + 1)
  }

  function WithoutUnderscores(s: string): (r: string)
    ensures forall i :: 0 <= i < |r| ==> r[i] != '_'
  {
    if s == [] then []
    else (if s[0] == '_' then [] else [s[0]]) + WithoutUnderscores(s[1..])
  }

  lemma {:induction false} WithoutUnderscoresAppend(a: string, b: string)
    ensures WithoutUnderscores(a + b) == WithoutUnderscores(a) + WithoutUnderscores(b)
  {
    if a == [] {
      assert a + b == b;
    } else {
      assert (a + b)[1..] == a[1..] + b;
      WithoutUnderscoresAppend(a[1..], b);
    }
  }

  /** The snake_case name differs from the lower-cased name only by the
      underscores it inserts. */
  lemma SnakeCaseOnlyAddsUnderscores(name: string)
    ensures WithoutUnderscores(SnakeCase(name)) == WithoutUnderscores(Lower(name))
  {
    SnakeFromSpec(name, 0);
  }

  lemma {:induction false} SnakeFromSpec(name: string, i: nat)
    requires i <= |name|
    ensures WithoutUnderscores(SnakeFrom(name, i)) == WithoutUnderscores(Lower(name[i..]))
    decreases |name| - i
  {
    if i < |name| {
      var c := name[i];
      var piece := if !IsUpper(c) then [c]
                   else if i > 0 && name[i - 1] != '_' then ['_', LowerChar(c)]
                   else [LowerChar(c)];
      assert SnakeFrom(name, i) == piece + SnakeFrom(name, i + 1);
      WithoutUnderscoresAppend(piece, SnakeFrom(name, i + 1));
      SnakeFromSpec(name, i + 1);
      assert Lower(name[i..]) == [LowerChar(c)] + Lower(name[i + 1..]);
      WithoutUnderscoresAppend([LowerChar(c)], Lower(name[i + 1..]));
      assert WithoutUnderscores(piece) == WithoutUnderscores([LowerChar(c)]);
    }
  }

  /** Whether a public property is projected: it matches no exclusion and its
      value is not null. */
  predicate Projects(p: Property, exclusions: seq<string>) {
    !AnyWildcardMatches(p.name, exclusions) && p.value.Some?
  }

  /** The projected properties, in declaration order, under snake_case names. */
  function ExtraFields(props: seq<Property>, exclusions: seq<string>): (r: seq<(string, Value)>)
    ensures |r| <= |props|
    ensures forall f :: f in r ==>
              (exists p :: p in props && Projects(p, exclusions) && f == (SnakeCase(p.name), p.value.value))
    ensures forall p :: p in props && Projects(p, exclusions) ==> (SnakeCase(p.name), p.value.value) in r
  {
    if props == [] then []
    else
      var rest := ExtraFields(props[1..], exclusions);
      assert forall p :: p in props[1..] ==> p in props;
      if Projects(props[0], exclusions) then [(SnakeCase(props[0].name), props[0].value.value)] + rest
      else rest
  }

  // ---------------------------------------------------------------------
  // Building the error record

  /** The `Data` dictionary of an exception instance, null when it has none. */
  function DataOf(dicts: map<ExnId, DataDict>, e: Exn): Option<DataDict> {
    if e.id in dicts then Some(dicts[e.id]) else None
  }

  /** The table of `Data` dictionaries after the marker is written into the
      dictionary of `e`; no other dictionary changes. */
  function MarkInTable(dicts: map<ExnId, DataDict>, e: Exn): (r: map<ExnId, DataDict>)
    ensures DataOf(r, e) == MarkProcessed(DataOf(dicts, e))
    ensures r.Keys == dicts.Keys
    ensures forall id :: id in dicts && id != e.id ==> r[id] == dicts[id]
  {
    if e.id in dicts then dicts[e.id := MarkProcessed(Some(dicts[e.id])).value] else dicts
  }

  /** The root error data: the copied `Data` entries, plus the extra-properties
      entry when some property is projected and no copied entry already uses
      its key. */
  function ErrorData(e: Exn, dicts: map<ExnId, DataDict>, exclusions: seq<string>): (r: map<string, Value>)
    ensures var copied := CopyData(DataOf(dicts, e), ExceptionExclusions + exclusions);
            var extra := ExtraFields(e.properties, ExceptionExclusions + exclusions);
            && (forall k :: k in copied ==> k in r && r[k] == copied[k])
            && (forall k :: k in r ==> k in copied || k == ExtraPropertiesKey)
            && (ExtraPropertiesKey in r && ExtraPropertiesKey !in copied ==> r[ExtraPropertiesKey] == ExtraProperties(extra))
            && (ExtraPropertiesKey in r <==> ExtraPropertiesKey in copied || extra != [])
            && |r| == |copied| + (if extra != [] && ExtraPropertiesKey !in copied then 1 else 0)
  {
    var all := ExceptionExclusions + exclusions;
    var copied := CopyData(DataOf(dicts, e), all);
    var extra := ExtraFields(e.properties, all);
    if extra != [] && ExtraPropertiesKey !in copied then copied[ExtraPropertiesKey := ExtraProperties(extra)]
    else copied
  }

  /** The error record of an exception and, recursively, of its inner
      exception. */
  function ToErrorRecord(e: Exn, dicts: map<ExnId, DataDict>, exclusions: seq<string>): (r: ErrorRecord)
    ensures r.typeName == e.typeName && r.message == e.message
    ensures r.data == ErrorData(e, dicts, exclusions)
    ensures r.inner.Some? <==> |e.inners| > 0
    ensures |e.inners| > 0 ==>
              r.inner.value.typeName == e.inners[0].typeName && r.inner.value.message == e.inners[0].message
  {
    ErrorRecord(e.typeName, e.message, ErrorData(e, dicts, exclusions),
      if |e.inners| > 0 then Some(ToErrorRecord(e.inners[0], dicts, exclusions)) else None)
  }
}
