/** The field-mapping editor (app/admin/field-mapping/page.tsx): a list of
    mappings that every handler replaces, and the per-type views rendered
    from it. */
module MappingEditor {
  import opened Wrappers
  import opened Seqs
  import opened JsValues
  import opened FieldMappings

  /** One `updateMapping(index, field, value)` write: the key and its new value. */
  datatype FieldUpdate =
    | SetPostType(postType: PostType)
    | SetAirtableField(airtableField: string)
    | SetAppField(appField: string)
    | SetFieldType(fieldType: FieldType)
    | SetRequired(required: bool)
    | SetDefaultValue(text: string)    // the editor's input always yields text

  /** `{ ...m, [field]: value }`: the named key takes the value, every other key
      keeps its own. */
  function WithField(m: FieldMapping, u: FieldUpdate): (r: FieldMapping)
    ensures r.postType == (if u.SetPostType? then u.postType else m.postType)
    ensures r.airtableField == (if u.SetAirtableField? then u.airtableField else m.airtableField)
    ensures r.appField == (if u.SetAppField? then u.appField else m.appField)
    ensures r.fieldType == (if u.SetFieldType? then u.fieldType else m.fieldType)
    ensures r.required == (if u.SetRequired? then u.required else m.required)
    ensures r.defaultValue == (if u.SetDefaultValue? then Str(u.text) else m.defaultValue)
    ensures r.relationTable == m.relationTable && r.relationDisplayField == m.relationDisplayField
  {
    match u
    case SetPostType(t) => m.(postType := t)
    case SetAirtableField(s) => m.(airtableField := s)
    case SetAppField(s) => m.(appField := s)
    case SetFieldType(ty) => m.(fieldType := ty)
    case SetRequired(b) => m.(required := b)
    case SetDefaultValue(s) => m.(defaultValue := Str(s))
  }

  /** The entry `addNewMapping(t)` appends. */
  function NewMapping(t: PostType): FieldMapping {
    FieldMapping(t, "", "", StringType, false, Str(""), None, None)
  }

  /** `handleResetPostType(t)`: the other types' mappings, then `t`'s defaults. */
  function ResetType(ms: seq<FieldMapping>, t: PostType): seq<FieldMapping> {
    MappingsNotOf(ms, t) + DefaultsFor(t)
  }

  /** `splice(i, 1)`: entry `i` removed, the rest in order. */
  function RemoveAt(ms: seq<FieldMapping>, i: nat): (r: seq<FieldMapping>)
    requires i < |ms|
    ensures |r| == |ms| - 1
    ensures multiset(r) + multiset{ms[i]} == multiset(ms)
  {
    assert ms == ms[..i] + [ms[i]] + ms[i + 1..];
    ms[..i] + ms[i + 1..]
  }

  class Editor {
    var mappings: seq<FieldMapping>
    var isLoading: bool

    constructor()
      ensures mappings == [] && isLoading
    {
      mappings := [];
      isLoading := true;
    }

    /** The mount effect: the whole stored (or default) list. */
    method Load(source: MappingSource)
      modifies this
      ensures mappings == GetFieldMappings(None, source) && !isLoading
    {
      mappings := GetFieldMappings(None, source);
      isLoading := false;
    }

    /** The rendered tab of one post type. */
    function View(t: PostType): (r: seq<FieldMapping>)
      reads this
      ensures forall i :: 0 <= i < |r| ==> r[i].postType == t
    {
      MappingsOf(mappings, t)
    }

    method HandleReset()
      modifies this
      ensures mappings == DefaultFieldMappings && isLoading == old(isLoading)
    {
      mappings := DefaultFieldMappings;
    }

    method HandleResetPostType(t: PostType)
      modifies this
      ensures mappings == ResetType(old(mappings), t) && isLoading == old(isLoading)
    {
      var defaults: seq<FieldMapping> := [];
      match t {
        case Tour => defaults := DefaultTourMappings;
        case Category => defaults := DefaultCategoryMappings;
        case Destination => defaults := DefaultDestinationMappings;
      }
      mappings := Filter(mappings, NotOfType(t)) + defaults;
    }

    /** The index comes from `findIndex` on an entry of the list, so it is
        always in range. */
    method UpdateMapping(i: nat, u: FieldUpdate)
      requires i < |mappings|
      modifies this
      ensures mappings == old(mappings)[i := WithField(old(mappings)[i], u)]
      ensures isLoading == old(isLoading)
    {
      var newMappings := mappings;
      newMappings := newMappings[i := WithField(newMappings[i], u)];
      mappings := newMappings;
    }

    method AddNewMapping(t: PostType)
      modifies this
      ensures mappings == old(mappings) + [NewMapping(t)] && isLoading == old(isLoading)
    {
      mappings := mappings + [NewMapping(t)];
    }

    /** The index comes from `findIndex` on an entry of the list, so it is
        always in range. */
    method RemoveMapping(i: nat)
      requires i < |mappings|
      modifies this
      ensures mappings == RemoveAt(old(mappings), i) && isLoading == old(isLoading)
    {
      var newMappings := mappings;
      newMappings := newMappings[..i] + newMappings[i + 1..];
      mappings := newMappings;
    }
  }

  // ----- filters over the mapping list -----

  lemma {:induction false} OfAfterNotOf(ms: seq<FieldMapping>, t: PostType, u: PostType)
    ensures MappingsOf(MappingsNotOf(ms, t), u) == if u == t then [] else MappingsOf(ms, u)
  {
    if ms != [] {
      OfAfterNotOf(ms[1..], t, u);
    }
  }

  lemma {:induction false} NotOfAfterNotOf(ms: seq<FieldMapping>, t: PostType)
    ensures MappingsNotOf(MappingsNotOf(ms, t), t) == MappingsNotOf(ms, t)
  {
    FilterIdempotent(ms, NotOfType(t));
  }

  lemma OfOneType(d: seq<FieldMapping>, t: PostType, u: PostType)
    requires AllOfType(d, t)
    ensures MappingsOf(d, u) == if u == t then d else []
    ensures MappingsNotOf(d, t) == []
  {
    if u == t { FilterAll(d, OfType(u)); } else { FilterNone(d, OfType(u)); }
    FilterNone(d, NotOfType(t));
  }

  // ----- properties of the handlers -----

  /** Putting a list of type `t` after the other types' mappings: the tab of
      `t` shows exactly that list, and the rest is as it was. */
  lemma ReplaceType(ms: seq<FieldMapping>, d: seq<FieldMapping>, t: PostType, u: PostType)
    requires AllOfType(d, t)
    ensures MappingsOf(MappingsNotOf(ms, t) + d, u) == if u == t then d else MappingsOf(ms, u)
    ensures MappingsNotOf(MappingsNotOf(ms, t) + d, t) == MappingsNotOf(ms, t)
  {
    FilterConcat(MappingsNotOf(ms, t), d, OfType(u));
    FilterConcat(MappingsNotOf(ms, t), d, NotOfType(t));
    OfAfterNotOf(ms, t, u);
    NotOfAfterNotOf(ms, t);
    OfOneType(d, t, u);
  }

  /** After resetting `t`, the tab of `t` shows exactly its defaults and
      every other tab is as it was. */
  lemma ResetTypeViews(ms: seq<FieldMapping>, t: PostType, u: PostType)
    ensures MappingsOf(ResetType(ms, t), u) == if u == t then DefaultsFor(t) else MappingsOf(ms, u)
  {
    DefaultsCarryTheirType(t);
    ReplaceType(ms, DefaultsFor(t), t, u);
  }

  /** Resetting keeps the other types' mappings in their relative order. */
  lemma ResetTypeKeepsOthers(ms: seq<FieldMapping>, t: PostType)
    ensures MappingsNotOf(ResetType(ms, t), t) == MappingsNotOf(ms, t)
  {
    DefaultsCarryTheirType(t);
    ReplaceType(ms, DefaultsFor(t), t, t);
  }

  /** Resetting the same type twice is resetting it once. */
  lemma ResetTypeIdempotent(ms: seq<FieldMapping>, t: PostType)
    ensures ResetType(ResetType(ms, t), t) == ResetType(ms, t)
  {
    ResetTypeKeepsOthers(ms, t);
  }

  /** The new entry shows at the end of its own tab; the other tabs do not change. */
  lemma AddNewMappingViews(ms: seq<FieldMapping>, t: PostType, u: PostType)
    ensures MappingsOf(ms + [NewMapping(t)], u) == MappingsOf(ms, u) + (if u == t then [NewMapping(t)] else [])
  {
    FilterConcat(ms, [NewMapping(t)], OfType(u));
    assert [NewMapping(t)][1..] == [];
  }

  /** An update that does not touch the post type keeps every tab's length. */
  lemma {:induction false} UpdateKeepsViewSizes(ms: seq<FieldMapping>, i: nat, u: FieldUpdate, t: PostType)
    requires i < |ms| && !u.SetPostType?
    ensures |MappingsOf(ms[i := WithField(ms[i], u)], t)| == |MappingsOf(ms, t)|
  {
    if i > 0 {
      assert ms[i := WithField(ms[i], u)][1..] == ms[1..][i - 1 := WithField(ms[1..][i - 1], u)];
      UpdateKeepsViewSizes(ms[1..], i - 1, u, t);
    } else {
      assert ms[i := WithField(ms[i], u)][1..] == ms[1..];
    }
  }

  /** Removal keeps the entries before `i` in place and moves the later ones
      down by one. */
  lemma RemoveAtShifts(ms: seq<FieldMapping>, i: nat, j: nat)
    requires i < |ms| && j < |ms| - 1
    ensures RemoveAt(ms, i)[j] == if j < i then ms[j] else ms[j + 1]
  {
  }
}
