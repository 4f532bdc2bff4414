// Named timeline presets: an in-memory list of `{id, name, state}` records
// with a current id, loaded from persisted data, saved over or appended to,
// renamed, and merged with imported lists.

module Presets {
  import opened Basics
  import opened Timeline

  /** A preset as the store holds it. */
  datatype Preset = Preset(id: string, name: string, state: TimelineState)

  /**
   * A preset as it comes out of parsed JSON: any of its fields may be
   * missing or empty (`state` missing is `None`; a missing `id` or `name`
   * reads as the empty string, which is just as falsy).
   */
  datatype RawPreset = RawPreset(id: string, name: string, state: Option<TimelineState>)

  /**
   * What a read of persisted data yields: nothing stored, text that does not
   * parse, or a parsed object whose `presets` is `None` when it is not an
   * array; a `null` entry of that array is `None`.
   */
  datatype Stored =
    | Missing
    | Malformed
    | Parsed(presets: Option<seq<Option<RawPreset>>>, currentPresetId: Option<string>)

  datatype PresetsData = PresetsData(presets: seq<Preset>, currentPresetId: Option<string>)

  /** `p && p.id && p.name && p.state`. */
  predicate IsValidRaw(p: Option<RawPreset>) {
    p.Some? && p.value.id != "" && p.value.name != "" && p.value.state.Some?
  }

  function FromRaw(p: Option<RawPreset>): Preset
    requires IsValidRaw(p)
  {
    Preset(p.value.id, p.value.name, p.value.state.value)
  }

  function ToRaw(p: Preset): Option<RawPreset> {
    Some(RawPreset(p.id, p.name, Some(p.state)))
  }

  /** A preset with a non-empty id and name, as loading keeps them. */
  predicate IsComplete(p: Preset) {
    p.id != "" && p.name != ""
  }

  /** The valid entries of a parsed list, in order. */
  function ValidPresets(raw: seq<Option<RawPreset>>): (r: seq<Preset>)
    ensures |r| <= |raw|
    ensures forall p :: p in r ==> IsComplete(p)
  {
    if raw == [] then []
    else if IsValidRaw(raw[0]) then [FromRaw(raw[0])] + ValidPresets(raw[1..])
    else ValidPresets(raw[1..])
  }

  /** `loadFromStorage`: anything other than a parsed object with a `presets` array is an empty store. */
  function Load(stored: Stored): (d: PresetsData)
    ensures forall p :: p in d.presets ==> IsComplete(p)
    ensures !(stored.Parsed? && stored.presets.Some?) ==> d == PresetsData([], None)
  {
    if stored.Parsed? && stored.presets.Some? then
      PresetsData(ValidPresets(stored.presets.value), stored.currentPresetId)
    else PresetsData([], None)
  }

  /** What `saveToStorage` writes, as it parses back. */
  function Persisted(d: PresetsData): Stored {
    Parsed(Some(RawsOf(d.presets)), d.currentPresetId)
  }

  function RawsOf(ps: seq<Preset>): (r: seq<Option<RawPreset>>)
    ensures |r| == |ps| && forall i :: 0 <= i < |ps| ==> r[i] == ToRaw(ps[i])
  {
    seq(|ps|, i requires 0 <= i < |ps| => ToRaw(ps[i]))
  }

  /** The complete presets of a list, in order. */
  function KeepComplete(ps: seq<Preset>): seq<Preset> {
    if ps == [] then [] else (if IsComplete(ps[0]) then [ps[0]] else []) + KeepComplete(ps[1..])
  }

  /** Filtering a list whose presets are all complete keeps it whole. */
  lemma {:induction false} KeepCompleteAll(ps: seq<Preset>)
    requires forall p :: p in ps ==> IsComplete(p)
    ensures KeepComplete(ps) == ps
  {
    if ps != [] {
      assert ps[0] in ps;
      assert forall p :: p in ps[1..] ==> p in ps;
      KeepCompleteAll(ps[1..]);
    }
  }

  /** Persisting and loading again keeps exactly the complete presets, in order, and the current id. */
  lemma {:induction false} LoadPersisted(d: PresetsData)
    ensures Load(Persisted(d)) == PresetsData(KeepComplete(d.presets), d.currentPresetId)
  {
    PersistedPresets(d.presets);
  }

  /** What the store holds after loading survives a save and a reload unchanged. */
  lemma LoadPersistedLoaded(stored: Stored)
    ensures Load(Persisted(Load(stored))) == Load(stored)
  {
    var d := Load(stored);
    LoadPersisted(d);
    KeepCompleteAll(d.presets);
  }

  lemma {:induction false} PersistedPresets(ps: seq<Preset>)
    ensures ValidPresets(RawsOf(ps)) == KeepComplete(ps)
  {
    var raw := RawsOf(ps);
    if ps != [] {
      assert raw[1..] == RawsOf(ps[1..]);
      PersistedPresets(ps[1..]);
    }
  }

  /** The first index whose preset has id `id` (`findIndex`). */
  function FirstIndex(ps: seq<Preset>, id: string): (r: Option<nat>)
    ensures r.Some? ==> r.value < |ps| && ps[r.value].id == id && forall j :: 0 <= j < r.value ==> ps[j].id != id
    ensures r.None? ==> forall j :: 0 <= j < |ps| ==> ps[j].id != id
  {
    if ps == [] then None
    else if ps[0].id == id then Some(0)
    else match FirstIndex(ps[1..], id)
      case None => None
      case Some(k) => Some(k + 1)
  }

  /** The set of ids in a list. */
  function IdsOf(ps: seq<Preset>): set<string> {
    set p | p in ps :: p.id
  }

  predicate UniqueIds(ps: seq<Preset>) {
    forall i, j :: 0 <= i < j < |ps| ==> ps[i].id != ps[j].id
  }

  /**
   * The presets the import merge appends: the valid entries of `raw` whose
   * ids are not in `known`, each id taken the first time it appears.
   */
  function Additions(known: set<string>, raw: seq<Option<RawPreset>>): (r: seq<Preset>)
    ensures |r| <= |raw|
    decreases |raw|
  {
    if raw == [] then []
    else if IsValidRaw(raw[0]) && raw[0].value.id !in known then
      [FromRaw(raw[0])] + Additions(known + {raw[0].value.id}, raw[1..])
    else Additions(known, raw[1..])
  }

  /** Every appended preset is complete, new, comes from the import, and no id is appended twice. */
  lemma {:induction false} AdditionsFresh(known: set<string>, raw: seq<Option<RawPreset>>)
    ensures var a := Additions(known, raw);
      && UniqueIds(a)
      && (forall i :: 0 <= i < |a| ==> a[i].id !in known && IsComplete(a[i]))
      && (forall i :: 0 <= i < |a| ==> exists j :: 0 <= j < |raw| && IsValidRaw(raw[j]) && FromRaw(raw[j]) == a[i])
    decreases |raw|
  {
    if raw != [] {
      if IsValidRaw(raw[0]) && raw[0].value.id !in known {
        var id := raw[0].value.id;
        AdditionsFresh(known + {id}, raw[1..]);
        var a := Additions(known, raw);
        var rest := Additions(known + {id}, raw[1..]);
        assert a == [FromRaw(raw[0])] + rest;
        forall i | 0 <= i < |a|
          ensures exists j :: 0 <= j < |raw| && IsValidRaw(raw[j]) && FromRaw(raw[j]) == a[i]
        {
          if i == 0 {
            assert IsValidRaw(raw[0]) && FromRaw(raw[0]) == a[0];
          } else {
            assert a[i] == rest[i - 1];
            var j :| 0 <= j < |raw[1..]| && IsValidRaw(raw[1..][j]) && FromRaw(raw[1..][j]) == rest[i - 1];
            assert raw[j + 1] == raw[1..][j];
          }
        }
      } else {
        AdditionsFresh(known, raw[1..]);
        var a := Additions(known, raw);
        forall i | 0 <= i < |a|
          ensures exists j :: 0 <= j < |raw| && IsValidRaw(raw[j]) && FromRaw(raw[j]) == a[i]
        {
          var j :| 0 <= j < |raw[1..]| && IsValidRaw(raw[1..][j]) && FromRaw(raw[1..][j]) == a[i];
          assert raw[j + 1] == raw[1..][j];
        }
      }
    }
  }

  /** Every valid imported preset whose id was not known is represented by some appended preset with that id. */
  lemma {:induction false} AdditionsComplete(known: set<string>, raw: seq<Option<RawPreset>>, j: nat)
    requires j < |raw| && IsValidRaw(raw[j]) && raw[j].value.id !in known
    ensures exists p :: p in Additions(known, raw) && p.id == raw[j].value.id
    decreases |raw|
  {
    if j == 0 {
      assert FromRaw(raw[0]) in Additions(known, raw);
    } else if IsValidRaw(raw[0]) && raw[0].value.id !in known {
      if raw[0].value.id == raw[j].value.id {
        assert FromRaw(raw[0]) in Additions(known, raw);
      } else {
        assert raw[1..][j - 1] == raw[j];
        AdditionsComplete(known + {raw[0].value.id}, raw[1..], j - 1);
      }
    } else {
      assert raw[1..][j - 1] == raw[j];
      AdditionsComplete(known, raw[1..], j - 1);
    }
  }

  /** `savePreset`'s list: overwrite the first match's state, or append `{id, name: id, state}`. */
  function Saved(ps: seq<Preset>, id: string, state: TimelineState): (r: seq<Preset>)
    ensures |ps| <= |r| <= |ps| + 1
    ensures forall j :: 0 <= j < |ps| ==> r[j].id == ps[j].id && r[j].name == ps[j].name
  {
    match FirstIndex(ps, id)
    case Some(i) => ps[i := ps[i].(state := state)]
    case None => ps + [Preset(id, id, state)]
  }

  /** After saving, looking `id` up finds the saved state; no other entry changes, nothing is removed. */
  lemma SavedFindsState(ps: seq<Preset>, id: string, state: TimelineState)
    ensures var r := Saved(ps, id, state);
      && FirstIndex(r, id).Some? && r[FirstIndex(r, id).value].state == state
      && |ps| <= |r| <= |ps| + 1 && (forall j :: 0 <= j < |ps| ==> r[j].id == ps[j].id && r[j].name == ps[j].name)
      && (forall j :: 0 <= j < |ps| && j != FirstIndex(r, id).value ==> r[j] == ps[j])
  {
    var r := Saved(ps, id, state);
    match FirstIndex(ps, id)
    case Some(i) =>
      assert r[i].id == id;
      assert forall j :: 0 <= j < i ==> r[j].id != id;
      assert FirstIndex(r, id) == Some(i);
    case None =>
      assert r[|ps|].id == id;
      assert forall j :: 0 <= j < |ps| ==> r[j].id != id;
      assert FirstIndex(r, id) == Some(|ps|);
  }

  /** Saving the same state twice is the same as saving it once. */
  lemma SavedIdempotent(ps: seq<Preset>, id: string, state: TimelineState)
    ensures Saved(Saved(ps, id, state), id, state) == Saved(ps, id, state)
  {
    SavedFindsState(ps, id, state);
    var r := Saved(ps, id, state);
    var i := FirstIndex(r, id).value;
    assert r[i := r[i].(state := state)] == r;
  }

  /** `renamePreset`'s list: the first match takes the trimmed name, if there is a match and that name is not empty. */
  function Renamed(ps: seq<Preset>, id: string, name: string): (r: seq<Preset>)
    ensures |r| == |ps| && forall j :: 0 <= j < |ps| ==> r[j].id == ps[j].id && r[j].state == ps[j].state
  {
    var t := Trim(name);
    match FirstIndex(ps, id)
    case Some(i) => if t != "" then ps[i := ps[i].(name := t)] else ps
    case None => ps
  }

  /** Renaming changes the first match only, to the trimmed name; a blank name or an unknown id changes nothing. */
  lemma RenamedEffect(ps: seq<Preset>, id: string, name: string)
    ensures Trim(name) == "" || FirstIndex(ps, id).None? ==> Renamed(ps, id, name) == ps
    ensures Trim(name) != "" && FirstIndex(ps, id).Some? ==>
      var i := FirstIndex(ps, id).value;
      Renamed(ps, id, name)[i].name == Trim(name)
      && forall j :: 0 <= j < |ps| && j != i ==> Renamed(ps, id, name)[j] == ps[j]
  {}

  /** Renaming twice with the same name is renaming once. */
  lemma RenamedIdempotent(ps: seq<Preset>, id: string, name: string)
    ensures Renamed(Renamed(ps, id, name), id, name) == Renamed(ps, id, name)
  {
    var r := Renamed(ps, id, name);
    var k := FirstIndex(ps, id);
    if k.Some? {
      assert forall j :: 0 <= j < |ps| ==> r[j].id == ps[j].id;
      assert FirstIndex(r, id) == k by {
        var m := FirstIndex(r, id);
        assert m.Some? && m.value == k.value;
      }
    } else {
      assert r == ps;
    }
  }

  /** `getCurrentPreset`: nothing for a null or empty current id, else the first preset with that id. */
  function CurrentOf(d: PresetsData): (r: Option<Preset>)
    ensures r.Some? <==> d.currentPresetId.Some? && d.currentPresetId.value != ""
                         && exists j :: 0 <= j < |d.presets| && d.presets[j].id == d.currentPresetId.value
    ensures r.Some? ==> r.value in d.presets && r.value.id == d.currentPresetId.value
  {
    if d.currentPresetId.None? || d.currentPresetId.value == "" then None
    else match FirstIndex(d.presets, d.currentPresetId.value)
      case None => None
      case Some(i) => Some(d.presets[i])
  }

  /** The store returned by `createTimelinePresetsStore`. */
  class PresetStore {
    var presets: seq<Preset>
    var currentPresetId: Option<string>

    function Data(): PresetsData
      reads this
    {
      PresetsData(presets, currentPresetId)
    }

    /** The store starts from whatever loading the persisted data yields. */
    constructor(stored: Stored)
      ensures Data() == Load(stored)
    {
      var d := Load(stored);
      presets := d.presets;
      currentPresetId := d.currentPresetId;
    }

    /** `init`: a file that loads replaces the data; a missing or unreadable file keeps it. */
    method Init(file: Stored)
      modifies this
      ensures file.Parsed? && file.presets.Some? ==> Data() == Load(file)
      ensures !(file.Parsed? && file.presets.Some?) ==> Data() == old(Data())
    {
      if file.Parsed? && file.presets.Some? {
        var d := Load(file);
        presets := d.presets;
        currentPresetId := d.currentPresetId;
      }
    }

    /** `getCurrentPreset()` on the store's data; its properties are those of `CurrentOf`. */
    function CurrentPreset(): (r: Option<Preset>)
      reads this
    {
      CurrentOf(Data())
    }

    method SetCurrentPresetId(id: Option<string>)
      modifies this
      ensures presets == old(presets) && currentPresetId == id
    {
      currentPresetId := id;
    }

    /** `savePreset`: overwrite or append, then make `id` current. */
    method SavePreset(id: string, state: TimelineState)
      modifies this
      ensures presets == Saved(old(presets), id, state) && currentPresetId == Some(id)
      ensures id != "" ==> CurrentPreset().Some? && CurrentPreset().value.state == state
    {
      var idx := FirstIndex(presets, id);
      if idx.Some? {
        presets := presets[idx.value := presets[idx.value].(state := state)];
      } else {
        presets := presets + [Preset(id, id, state)];
      }
      currentPresetId := Some(id);
      SavedFindsState(old(presets), id, state);
    }

    /** `saveAsNewPreset` with the generated id passed in: append one preset and make it current. */
    method SaveAsNewPreset(id: string, name: string, state: TimelineState) returns (r: string)
      modifies this
      ensures r == id
      ensures presets == old(presets) + [Preset(id, name, state)] && currentPresetId == Some(id)
    {
      presets := presets + [Preset(id, name, state)];
      currentPresetId := Some(id);
      r := id;
    }

    /** `renamePreset`. */
    method RenamePreset(id: string, name: string)
      modifies this
      ensures presets == Renamed(old(presets), id, name) && currentPresetId == old(currentPresetId)
    {
      var t := Trim(name);
      var idx := FirstIndex(presets, id);
      if idx.Some? && t != "" {
        presets := presets[idx.value := presets[idx.value].(name := t)];
      }
    }

    /**
     * `importFromJSON`: unparsable text or a non-array `presets` changes
     * nothing; otherwise the valid entries with unseen ids are appended.
     */
    method ImportPresets(parsed: Stored)
      modifies this
      ensures currentPresetId == old(currentPresetId)
      ensures parsed.Parsed? && parsed.presets.Some? ==>
        presets == old(presets) + Additions(IdsOf(old(presets)), parsed.presets.value)
      ensures !(parsed.Parsed? && parsed.presets.Some?) ==> presets == old(presets)
    {
      if !(parsed.Parsed? && parsed.presets.Some?) {
        return;
      }
      var raw := parsed.presets.value;
      var existing := IdsOf(presets);
      var i := 0;
      while i < |raw|
        invariant 0 <= i <= |raw|
        invariant existing == IdsOf(presets) && currentPresetId == old(currentPresetId)
        invariant presets + Additions(existing, raw[i..]) == old(presets) + Additions(IdsOf(old(presets)), raw)
      {
        var p := raw[i];
        assert raw[i..][1..] == raw[i + 1..];
        if IsValidRaw(p) && p.value.id !in existing {
          var q := FromRaw(p);
          assert IdsOf(presets + [q]) == IdsOf(presets) + {q.id} by {
            assert forall x :: x in presets + [q] <==> x in presets || x == q;
          }
          presets := presets + [q];
          existing := existing + {q.id};
        }
        i := i + 1;
      }
      assert raw[i..] == [];
    }
  }

  /** Importing keeps the old presets in place and, starting from distinct ids, keeps ids distinct. */
  lemma ImportKeepsIdsUnique(ps: seq<Preset>, raw: seq<Option<RawPreset>>)
    requires UniqueIds(ps)
    ensures UniqueIds(ps + Additions(IdsOf(ps), raw))
  {
    var a := Additions(IdsOf(ps), raw);
    AdditionsFresh(IdsOf(ps), raw);
    var r := ps + a;
    forall i, j | 0 <= i < j < |r|
      ensures r[i].id != r[j].id
    {
      if j >= |ps| && i < |ps| {
        assert r[i] in ps;
        assert r[j] == a[j - |ps|];
      } else if i >= |ps| {
        assert r[i] == a[i - |ps|] && r[j] == a[j - |ps|];
      }
    }
  }
}
