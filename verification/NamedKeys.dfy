/** The key ids a state file names, read raw: any text of the minted shape, at any depth of the document,
    the names of fields included. */
module NamedKeys {
  import opened GrantKeys
  import opened Wrappers

  /** A parsed document. Of texts only their shape as a key id matters. */
  datatype Json = Plain | Str(text: Id) | Items(items: seq<Json>) | Fields(fields: seq<Field>)
  datatype Field = Field(name: Id, value: Json)

  /** What is found at `path`, a place in each list or object on the way down. */
  ghost predicate At(doc: Json, path: seq<nat>, found: Json) {
    if path == [] then found == doc
    else match doc
      case Items(items) => path[0] < |items| && At(items[path[0]], path[1..], found)
      case Fields(fields) => path[0] < |fields| && At(fields[path[0]].value, path[1..], found)
      case _ => false
  }

  /** `j` is the text, or an object with a field of that name. */
  ghost predicate Says(j: Json, id: Id) {
    j == Str(id) || (j.Fields? && exists k :: 0 <= k < |j.fields| && j.fields[k].name == id)
  }

  ghost predicate Mentions(doc: Json, id: Id) {
    exists path, found :: At(doc, path, found) && Says(found, id)
  }

  /** A document mentions what it says itself and what its parts mention. */
  lemma MentionsParts(doc: Json, id: Id)
    ensures Mentions(doc, id) <==>
      || Says(doc, id)
      || (doc.Items? && exists k :: 0 <= k < |doc.items| && Mentions(doc.items[k], id))
      || (doc.Fields? && exists k :: 0 <= k < |doc.fields| && Mentions(doc.fields[k].value, id))
  {
    if Says(doc, id) {
      assert At(doc, [], doc);
    }
    if Mentions(doc, id) {
      var path, found :| At(doc, path, found) && Says(found, id);
      if path != [] && doc.Items? {
        assert At(doc.items[path[0]], path[1..], found);
      } else if path != [] {
        assert At(doc.fields[path[0]].value, path[1..], found);
      }
    }
    if doc.Items? {
      forall k | 0 <= k < |doc.items| && Mentions(doc.items[k], id) ensures Mentions(doc, id) {
        DownOne(doc, k, doc.items[k], id);
      }
    }
    if doc.Fields? {
      forall k | 0 <= k < |doc.fields| && Mentions(doc.fields[k].value, id) ensures Mentions(doc, id) {
        DownOne(doc, k, doc.fields[k].value, id);
      }
    }
  }

  lemma DownOne(doc: Json, k: nat, part: Json, id: Id)
    requires (doc.Items? && k < |doc.items| && part == doc.items[k])
        || (doc.Fields? && k < |doc.fields| && part == doc.fields[k].value)
    requires Mentions(part, id)
    ensures Mentions(doc, id)
  {
    var path, found :| At(part, path, found) && Says(found, id);
    assert ([k] + path)[1..] == path;
    assert At(doc, [k] + path, found);
  }

  /** The minted ids among `out`, and those `doc` mentions. */
  ghost predicate Collected(doc: Json, out: set<Id>, next: set<Id>) {
    forall id :: id in next <==> id in out || (Minted(id) && Mentions(doc, id))
  }

  /** Adds every minted id `doc` mentions. */
  method Walk(doc: Json, out: set<Id>) returns (next: set<Id>)
    ensures Collected(doc, out, next)
    decreases doc
  {
    next := out;
    forall id ensures Mentions(doc, id) <==>
        || Says(doc, id)
        || (doc.Items? && exists k :: 0 <= k < |doc.items| && Mentions(doc.items[k], id))
        || (doc.Fields? && exists k :: 0 <= k < |doc.fields| && Mentions(doc.fields[k].value, id)) {
      MentionsParts(doc, id);
    }
    match doc
    case Plain =>
    case Str(text) =>
      if Minted(text) {
        next := next + {text};
      }
    case Items(items) =>
      var k := 0;
      while k < |items|
        invariant 0 <= k <= |items|
        invariant forall id :: id in next <==>
          id in out || (Minted(id) && exists j :: 0 <= j < k && Mentions(items[j], id))
      {
        next := Walk(items[k], next);
        k := k + 1;
      }
    case Fields(fields) =>
      var k := 0;
      while k < |fields|
        invariant 0 <= k <= |fields|
        invariant forall id :: id in next <==>
          || id in out
          || (Minted(id) && exists j :: 0 <= j < k && (fields[j].name == id || Mentions(fields[j].value, id)))
      {
        if Minted(fields[k].name) {
          next := next + {fields[k].name};
        }
        next := Walk(fields[k].value, next);
        k := k + 1;
      }
  }

  /** Every minted id the file names, wherever it stands in it, and no other. */
  method NamedKeyIds(doc: Option<Json>) returns (names: Option<set<Id>>)
    ensures names.Some? <==> doc.Some?
    ensures doc.Some? ==> forall id :: id in names.value <==> Minted(id) && Mentions(doc.value, id)
  {
    if doc.None? {
      return None;
    }
    var out := Walk(doc.value, {});
    return Some(out);
  }
}
