/** The preset store of presets.py: built-in presets merged with the ones
    saved in the presets file, and the commands that save, delete, edit and
    list them. The file is an abstract persisted value; reading and writing
    it stand for the JSON load and dump. */
module Presets {
  import opened Values
  import opened Strings

  // ------------------------------------------------------ ordered mappings

  predicate Distinct(s: seq<string>) {
    forall i, j :: 0 <= i < j < |s| ==> s[i] != s[j]
  }

  /** A Python dict from preset name to preset record: its names in
      insertion order and its entries. */
  datatype Dict = Dict(keys: seq<string>, entries: map<string, Record>) {
    ghost predicate Valid() {
      Distinct(keys) && forall k :: k in entries <==> k in keys
    }
  }

  /** The entry for `name`, or the empty record when there is none. */
  function At(d: Dict, name: string): Record {
    if name in d.entries then d.entries[name] else map[]
  }

  /** `d[name] = r`: a new name goes last, an existing one keeps its place. */
  function Put(d: Dict, name: string, r: Record): Dict {
    if name in d.entries then Dict(d.keys, d.entries[name := r])
    else Dict(d.keys + [name], d.entries[name := r])
  }

  lemma PutValid(d: Dict, name: string, r: Record)
    requires d.Valid()
    ensures Put(d, name, r).Valid()
  {
  }

  /** `keys` without `name`, in the same order. */
  function Without(keys: seq<string>, name: string): (r: seq<string>)
    ensures forall k :: k in r <==> k in keys && k != name
    ensures Distinct(keys) ==> Distinct(r)
  {
    if |keys| == 0 then []
    else
      var rest := Without(keys[1..], name);
      assert Distinct(keys) ==> Distinct(keys[1..]) && keys[0] !in keys[1..];
      if keys[0] == name then rest else [keys[0]] + rest
  }

  /** `del d[name]`. */
  function Remove(d: Dict, name: string): (e: Dict)
    ensures d.Valid() ==> e.Valid()
  {
    Dict(Without(d.keys, name), d.entries - {name})
  }

  /** The names of `ks` that are not in `present`, in order. */
  function Fresh(ks: seq<string>, present: set<string>): seq<string> {
    if |ks| == 0 then []
    else (if ks[0] in present then [] else [ks[0]]) + Fresh(ks[1..], present)
  }

  /** `d[k] = src[k]` for each `k` of `ks` in turn. */
  function PutAll(d: Dict, ks: seq<string>, src: map<string, Record>): Dict
    decreases |ks|
  {
    if |ks| == 0 then d
    else PutAll(Put(d, ks[0], if ks[0] in src then src[ks[0]] else map[]), ks[1..], src)
  }

  /** `{**a, **b}`. */
  function Merge(a: Dict, b: Dict): Dict {
    PutAll(a, b.keys, b.entries)
  }

  lemma FreshSkip(ks: seq<string>, present: set<string>, x: string)
    requires x !in ks
    ensures Fresh(ks, present + {x}) == Fresh(ks, present)
  {
    if |ks| > 0 {
      FreshSkip(ks[1..], present, x);
    }
  }

  lemma {:induction false} PutAllKeys(d: Dict, ks: seq<string>, src: map<string, Record>)
    requires d.Valid()
    decreases |ks|
    ensures var r := PutAll(d, ks, src);
      && r.Valid()
      && (forall k :: k in r.entries <==> k in d.entries || k in ks)
  {
    if |ks| > 0 {
      var d1 := Put(d, ks[0], if ks[0] in src then src[ks[0]] else map[]);
      PutValid(d, ks[0], if ks[0] in src then src[ks[0]] else map[]);
      PutAllKeys(d1, ks[1..], src);
      assert forall k :: k in ks <==> k == ks[0] || k in ks[1..];
    }
  }

  lemma DistinctTail(ks: seq<string>)
    requires |ks| > 0 && Distinct(ks)
    ensures Distinct(ks[1..]) && ks[0] !in ks[1..]
  {
  }

  /** The names that `ks` adds to a dict holding `present`, after its first
      name has been put. */
  lemma FreshStep(ks: seq<string>, present: set<string>)
    requires |ks| > 0 && Distinct(ks)
    ensures Fresh(ks[1..], present + {ks[0]}) == Fresh(ks[1..], present)
    ensures Fresh(ks, present) == (if ks[0] in present then [] else [ks[0]]) + Fresh(ks[1..], present)
  {
    DistinctTail(ks);
    FreshSkip(ks[1..], present, ks[0]);
  }

  lemma PutShape(d: Dict, name: string, r: Record)
    ensures Put(d, name, r).keys == if name in d.entries then d.keys else d.keys + [name]
    ensures Put(d, name, r).entries.Keys == d.entries.Keys + {name}
  {
  }

  lemma {:induction false} PutAllOrder(d: Dict, ks: seq<string>, src: map<string, Record>)
    requires Distinct(ks)
    decreases |ks|
    ensures PutAll(d, ks, src).keys == d.keys + Fresh(ks, d.entries.Keys)
  {
    if |ks| > 0 {
      var k0 := ks[0];
      var d1 := Put(d, k0, if k0 in src then src[k0] else map[]);
      assert PutAll(d, ks, src) == PutAll(d1, ks[1..], src);
      DistinctTail(ks);
      PutAllOrder(d1, ks[1..], src);
      FreshStep(ks, d.entries.Keys);
      PutShape(d, k0, if k0 in src then src[k0] else map[]);
      var tail := Fresh(ks[1..], d.entries.Keys);
      assert Fresh(ks[1..], d1.entries.Keys) == tail;
      if k0 !in d.entries {
        assert d.keys + [k0] + tail == d.keys + ([k0] + tail);
      }
    }
  }

  lemma {:induction false} PutAllValues(d: Dict, ks: seq<string>, src: map<string, Record>)
    requires Distinct(ks)
    requires forall k :: k in ks ==> k in src
    decreases |ks|
    ensures var r := PutAll(d, ks, src);
      && (forall k :: k in ks ==> k in r.entries && r.entries[k] == src[k])
      && (forall k :: k in d.entries && k !in ks ==> k in r.entries && r.entries[k] == d.entries[k])
  {
    if |ks| > 0 {
      var k0 := ks[0];
      var d1 := Put(d, k0, src[k0]);
      assert Distinct(ks[1..]);
      assert k0 !in ks[1..];
      PutAllValues(d1, ks[1..], src);
    }
  }

  /** The merge keeps every name of either side; a name in `b` gets b's
      entry, any other keeps a's; a's names come first in a's order, then
      b's new names in b's order. */
  lemma MergeMeaning(a: Dict, b: Dict)
    requires a.Valid() && b.Valid()
    ensures var m := Merge(a, b);
      && m.Valid()
      && m.keys == a.keys + Fresh(b.keys, a.entries.Keys)
      && (forall k :: k in m.entries <==> k in a.entries || k in b.entries)
      && (forall k :: k in b.entries ==> m.entries[k] == b.entries[k])
      && (forall k :: k in a.entries && k !in b.entries ==> m.entries[k] == a.entries[k])
  {
    PutAllKeys(a, b.keys, b.entries);
    PutAllOrder(a, b.keys, b.entries);
    PutAllValues(a, b.keys, b.entries);
  }

  // ------------------------------------------------------- built-in presets

  /** DEFAULT_PRESETS. */
  const DefaultPresets := Dict(
    ["compress_web", "audio_only_mp3", "gif_optimized", "resize_half", "hq_h264_mp4", "mobile_friendly_mp4",
     "webm_social_media"],
    map[
      "compress_web" := map["format" := Str("mp4"), "vcodec" := Str("libx264"), "acodec" := Str("aac"),
                            "quality" := Str("28"), "vbitrate" := Null, "abitrate" := Str("128k"),
                            "description" := Str("Compress video for web sharing (good balance of size and quality).")],
      "audio_only_mp3" := map["format" := Str("mp3"), "vcodec" := Null, "acodec" := Str("libmp3lame"),
                              "vbitrate" := Null, "abitrate" := Str("192k"),
                              "description" := Str("Extract audio to MP3 format (high quality).")],
      "gif_optimized" := map["format" := Str("gif"), "vcodec" := Null, "acodec" := Null,
                             "description" := Str("Create optimized GIF (better quality, smaller size, may be slower).")],
      "resize_half" := map["resize_percentage" := Num("0.5"),
                           "description" := Str("Resize video to 50% of original resolution.")],
      "hq_h264_mp4" := map["format" := Str("mp4"), "vcodec" := Str("libx264"), "acodec" := Str("aac"),
                           "quality" := Str("22"), "vbitrate" := Null, "abitrate" := Str("192k"),
                           "description" := Str("High quality H.264 MP4 (larger file size).")],
      "mobile_friendly_mp4" := map["format" := Str("mp4"), "vcodec" := Str("libx264"), "acodec" := Str("aac"),
                                   "quality" := Str("32"), "vbitrate" := Null, "abitrate" := Str("96k"),
                                   "description" := Str("Mobile-friendly MP4 (smaller file size, decent quality).")],
      "webm_social_media" := map["format" := Str("webm"), "vcodec" := Str("libvpx-vp9"), "acodec" := Str("libopus"),
                                 "quality" := Str("30"), "vbitrate" := Null, "abitrate" := Str("128k"),
                                 "description" := Str("WebM for social sharing, YouTube).")]
    ])

  // ---------------------------------------------------- the store as values

  /** The presets file: absent, not valid JSON, or a saved dict. */
  datatype PresetFile = Missing | Corrupt | Saved(presets: Dict)

  /** What `load_presets` returns: the saved presets merged over the
      defaults, or the defaults when there is no readable file. */
  function Loaded(defaults: Dict, file: PresetFile): Dict {
    match file
    case Saved(p) => Merge(defaults, p)
    case _ => defaults
  }

  /** The result of a store command, the file it leaves, and the defaults
      it leaves (they change when the command edited them through the
      dict `load_presets` returned). */
  datatype Outcome = Outcome(ok: bool, file: PresetFile, defaults: Dict)

  /** `save_preset_command` with `answer` typed at the overwrite prompt. */
  function SaveSpec(defaults: Dict, file: PresetFile, name: string, data: Record, answer: string): Outcome {
    var p := Loaded(defaults, file);
    if name in p.entries && Lower(answer) != "y" then Outcome(false, file, defaults)
    else
      var q := Put(p, name, data);
      Outcome(true, Saved(q), if file.Saved? then defaults else q)
  }

  /** `delete_preset`. */
  function DeleteSpec(defaults: Dict, file: PresetFile, name: string): Outcome {
    var p := Loaded(defaults, file);
    if name !in p.entries then Outcome(false, file, defaults)
    else
      var q := Remove(p, name);
      Outcome(true, Saved(q), if file.Saved? then defaults else q)
  }

  ghost predicate FileValid(file: PresetFile) {
    file.Saved? ==> file.presets.Valid()
  }

  lemma LoadedValid(defaults: Dict, file: PresetFile)
    requires defaults.Valid() && FileValid(file)
    ensures Loaded(defaults, file).Valid()
  {
    if file.Saved? {
      MergeMeaning(defaults, file.presets);
    }
  }

  /** The loaded presets hold every default name, and a saved entry wins
      over the default of the same name; with no readable file they are the
      defaults. */
  lemma LoadedMeaning(defaults: Dict, file: PresetFile)
    requires defaults.Valid() && FileValid(file)
    ensures var p := Loaded(defaults, file);
      && (forall k :: k in defaults.entries ==> k in p.entries)
      && (file.Saved? ==> forall k :: k in file.presets.entries ==> k in p.entries && p.entries[k] == file.presets.entries[k])
      && (file.Saved? ==> forall k :: k in p.entries ==> k in defaults.entries || k in file.presets.entries)
      && (!file.Saved? ==> p == defaults)
  {
    if file.Saved? {
      MergeMeaning(defaults, file.presets);
    }
  }

  /** The answer that lets an overwrite go ahead. */
  lemma ConfirmAnswer(answer: string)
    ensures Lower(answer) == "y" <==> answer == "y" || answer == "Y"
  {
    if Lower(answer) == "y" {
      assert |answer| == 1 && LowerChar(answer[0]) == 'y';
      assert answer == [answer[0]];
    }
  }

  /** Saving a new name adds exactly that entry, writes the file and
      reports success; every other entry is unchanged. */
  lemma SaveNew(defaults: Dict, file: PresetFile, name: string, data: Record, answer: string)
    requires defaults.Valid() && FileValid(file)
    requires name !in Loaded(defaults, file).entries
    ensures var o := SaveSpec(defaults, file, name, data, answer);
      && o.ok && o.file.Saved?
      && o.file.presets.entries == Loaded(defaults, file).entries[name := data]
      && o.file.presets.keys == Loaded(defaults, file).keys + [name]
      && o.file.presets.Valid()
  {
    LoadedValid(defaults, file);
  }

  /** Saving over an existing name happens only when the answer is "y" or
      "Y": then that one entry is replaced in place; otherwise the command
      fails and neither the file nor the defaults change. */
  lemma SaveExisting(defaults: Dict, file: PresetFile, name: string, data: Record, answer: string)
    requires defaults.Valid() && FileValid(file)
    requires name in Loaded(defaults, file).entries
    ensures var o := SaveSpec(defaults, file, name, data, answer);
      && (o.ok <==> answer == "y" || answer == "Y")
      && (!o.ok ==> o.file == file && o.defaults == defaults)
      && (o.ok ==> o.file == Saved(Dict(Loaded(defaults, file).keys, Loaded(defaults, file).entries[name := data])))
  {
    ConfirmAnswer(answer);
  }

  /** After a save goes ahead, every later load (whatever defaults it
      starts from) finds the saved record under its name. */
  lemma SavedThenLoaded(defaults: Dict, file: PresetFile, name: string, data: Record, answer: string, later: Dict)
    requires defaults.Valid() && FileValid(file) && later.Valid()
    requires SaveSpec(defaults, file, name, data, answer).ok
    ensures var next := Loaded(later, SaveSpec(defaults, file, name, data, answer).file);
      name in next.entries && next.entries[name] == data
  {
    LoadedValid(defaults, file);
    var q := Put(Loaded(defaults, file), name, data);
    PutValid(Loaded(defaults, file), name, data);
    LoadedMeaning(later, Saved(q));
  }

  /** Deleting a missing name fails and changes nothing. */
  lemma DeleteAbsent(defaults: Dict, file: PresetFile, name: string)
    requires name !in Loaded(defaults, file).entries
    ensures DeleteSpec(defaults, file, name) == Outcome(false, file, defaults)
  {
  }

  /** Deleting a present name removes only that name, keeps the order of
      the others and writes the result. */
  lemma DeletePresent(defaults: Dict, file: PresetFile, name: string)
    requires defaults.Valid() && FileValid(file)
    requires name in Loaded(defaults, file).entries
    ensures var o := DeleteSpec(defaults, file, name);
      var p := Loaded(defaults, file);
      && o.ok && o.file.Saved? && o.file.presets.Valid()
      && name !in o.file.presets.entries
      && (forall k :: k in p.entries && k != name ==> k in o.file.presets.entries && o.file.presets.entries[k] == p.entries[k])
      && o.file.presets.keys == Without(p.keys, name)
  {
    LoadedValid(defaults, file);
  }

  /** A deleted default preset comes back, with its default record, on a
      load from the unchanged defaults: on a later run, or in the same
      process when the delete found a readable file (it then leaves the
      defaults as they were). A saved entry of that name is gone with the
      delete. */
  lemma DeletedDefaultReturns(defaults: Dict, file: PresetFile, name: string)
    requires defaults.Valid() && FileValid(file)
    requires name in defaults.entries
    ensures var o := DeleteSpec(defaults, file, name);
      && o.ok
      && name in Loaded(defaults, o.file).entries
      && Loaded(defaults, o.file).entries[name] == defaults.entries[name]
  {
    LoadedMeaning(defaults, file);
    LoadedValid(defaults, file);
    var o := DeleteSpec(defaults, file, name);
    assert o.file.presets.Valid();
    assert name !in o.file.presets.entries;
    MergeMeaning(defaults, o.file.presets);
  }

  /** With no readable file, the delete edits the defaults themselves, so
      a later load in the same process, merging the new file over them, no
      longer finds the name. */
  lemma DeletedDefaultGoneInProcess(defaults: Dict, file: PresetFile, name: string)
    requires defaults.Valid() && !file.Saved?
    requires name in defaults.entries
    ensures var o := DeleteSpec(defaults, file, name);
      && o.ok
      && name !in Loaded(o.defaults, o.file).entries
  {
    var o := DeleteSpec(defaults, file, name);
    DeletePresent(defaults, file, name);
    MergeMeaning(o.defaults, o.file.presets);
  }

  lemma DefaultPresetsValid()
    ensures DefaultPresets.Valid()
  {
  }

  /** Deleting a built-in preset does not last: a later run, which starts
      from the built-in presets again, brings it back with its built-in
      record. */
  lemma DeletedBuiltinReturns(file: PresetFile, name: string)
    requires FileValid(file)
    requires name in DefaultPresets.entries
    ensures var o := DeleteSpec(DefaultPresets, file, name);
      && o.ok
      && name in Loaded(DefaultPresets, o.file).entries
      && Loaded(DefaultPresets, o.file).entries[name] == DefaultPresets.entries[name]
  {
    DefaultPresetsValid();
    DeletedDefaultReturns(DefaultPresets, file, name);
  }

  /** With no readable file, a save or a delete edits the built-in presets
      themselves, since `load_presets` handed them out; with a saved file
      they stay as they were. */
  lemma CommandsEditDefaults(defaults: Dict, file: PresetFile, name: string, data: Record, answer: string)
    requires defaults.Valid()
    ensures var s := SaveSpec(defaults, file, name, data, answer);
      && (!file.Saved? && s.ok ==> s.defaults == Put(defaults, name, data) && s.defaults.entries[name] == data)
      && (file.Saved? ==> s.defaults == defaults)
    ensures var d := DeleteSpec(defaults, file, name);
      && (!file.Saved? && d.ok ==> d.defaults == Remove(defaults, name) && name !in d.defaults.entries)
      && (file.Saved? ==> d.defaults == defaults)
  {
  }

  // ---------------------------------------------------------------- listing

  /** The description `list_presets` shows for a record. */
  function Description(r: Record): string {
    if "description" in r then Text(r["description"]) else "No description provided."
  }

  function ListLine(name: string, r: Record): string {
    "  - " + name + ": " + Description(r)
  }

  function ListLines(d: Dict, names: seq<string>): seq<string> {
    if |names| == 0 then [] else [ListLine(names[0], At(d, names[0]))] + ListLines(d, names[1..])
  }

  /** Everything `list_presets` prints. */
  function Listing(d: Dict): seq<string> {
    ["Available Presets:"] + ListLines(d, d.keys)
  }

  lemma {:induction false} ListLinesSnoc(d: Dict, names: seq<string>, n: string)
    ensures ListLines(d, names + [n]) == ListLines(d, names) + [ListLine(n, At(d, n))]
  {
    if |names| == 0 {
      assert names + [n] == [n];
      assert |[n][1..]| == 0;
    } else {
      assert (names + [n])[1..] == names[1..] + [n];
      ListLinesSnoc(d, names[1..], n);
    }
  }

  lemma {:induction false} ListLinesAt(d: Dict, names: seq<string>)
    ensures |ListLines(d, names)| == |names|
    ensures forall i :: 0 <= i < |names| ==> ListLines(d, names)[i] == ListLine(names[i], At(d, names[i]))
  {
    if |names| > 0 {
      ListLinesAt(d, names[1..]);
    }
  }

  lemma ListLinesStep(d: Dict, i: int)
    requires 0 <= i < |d.keys|
    ensures ListLines(d, d.keys[..i + 1]) == ListLines(d, d.keys[..i]) + [ListLine(d.keys[i], At(d, d.keys[i]))]
  {
    ListLinesSnoc(d, d.keys[..i], d.keys[i]);
    assert d.keys[..i + 1] == d.keys[..i] + [d.keys[i]];
  }

  /** The listing is a header and then one line per preset in dict order,
      with its description, or "No description provided." exactly when the
      record has no description field. */
  lemma ListingMeaning(d: Dict)
    ensures var l := Listing(d);
      && |l| == |d.keys| + 1 && l[0] == "Available Presets:"
      && forall i :: 0 <= i < |d.keys| ==>
           l[i + 1] == "  - " + d.keys[i] + ": " + Description(At(d, d.keys[i]))
           && (Description(At(d, d.keys[i])) == "No description provided." <==>
               "description" !in At(d, d.keys[i]) || Text(At(d, d.keys[i])["description"]) == "No description provided.")
  {
    ListLinesAt(d, d.keys);
  }

  // ---------------------------------------------------- the store in place

  /** A dict object that the commands change in place. */
  class PresetDict {
    var items: Dict

    constructor (items: Dict)
      ensures this.items == items
    {
      this.items := items;
    }
  }

  /** The module state of presets.py: the DEFAULT_PRESETS object and the
      presets file. */
  class PresetStore {
    const defaults: PresetDict
    var file: PresetFile

    /** The defaults and a saved file are well-formed dicts, as every dict
        the store holds is. */
    ghost predicate Valid()
      reads this, defaults
    {
      defaults.items.Valid() && FileValid(file)
    }

    constructor (file: PresetFile)
      requires FileValid(file)
      ensures Valid()
      ensures fresh(defaults) && defaults.items == DefaultPresets && this.file == file
    {
      DefaultPresetsValid();
      defaults := new PresetDict(DefaultPresets);
      this.file := file;
    }

    /** `load_presets`: a fresh merged dict when the file reads, otherwise
        the DEFAULT_PRESETS object itself. */
    method LoadPresets() returns (p: PresetDict)
      ensures file.Saved? ==> fresh(p)
      ensures !file.Saved? ==> p == defaults
      ensures p.items == Loaded(defaults.items, file)
    {
      match file
      case Saved(saved) =>
        p := new PresetDict(Merge(defaults.items, saved));
      case _ =>
        p := defaults;
    }

    /** `save_preset_command`; `answer` is what the user types at the
        overwrite prompt. */
    method SavePresetCommand(name: string, data: Record, answer: string) returns (saved: bool)
      requires Valid()
      modifies this, defaults
      ensures Valid()
      ensures var o := SaveSpec(old(defaults.items), old(file), name, data, answer);
        saved == o.ok && file == o.file && defaults.items == o.defaults
    {
      var presets := LoadPresets();
      LoadedValid(defaults.items, file);
      if name in presets.items.entries {
        var overwrite := Lower(answer);
        if overwrite != "y" {
          return false;
        }
      }
      PutValid(presets.items, name, data);
      presets.items := Put(presets.items, name, data);
      file := Saved(presets.items);
      saved := true;
    }

    /** `delete_preset`. */
    method DeletePreset(name: string) returns (deleted: bool)
      requires Valid()
      modifies this, defaults
      ensures Valid()
      ensures var o := DeleteSpec(old(defaults.items), old(file), name);
        deleted == o.ok && file == o.file && defaults.items == o.defaults
    {
      var presets := LoadPresets();
      LoadedValid(defaults.items, file);
      if name !in presets.items.entries {
        return false;
      }
      presets.items := Remove(presets.items, name);
      file := Saved(presets.items);
      deleted := true;
    }

    /** `edit_preset_command` up to the editor: an unknown name fails before
        any editor is launched; otherwise the editor is launched and
        `editorOpened` says whether that worked. */
    method EditPresetCommand(name: string, editorOpened: bool) returns (ok: bool, launched: bool)
      ensures launched <==> name in Loaded(defaults.items, file).entries
      ensures ok <==> launched && editorOpened
    {
      var presets := LoadPresets();
      if name !in presets.items.entries {
        return false, false;
      }
      launched := true;
      ok := editorOpened;
    }

    /** `list_presets`: the lines it prints. */
    method ListPresets() returns (lines: seq<string>)
      ensures lines == Listing(Loaded(defaults.items, file))
    {
      var presets := LoadPresets();
      var d := presets.items;
      lines := ["Available Presets:"];
      var i := 0;
      while i < |d.keys|
        invariant 0 <= i <= |d.keys|
        invariant lines == ["Available Presets:"] + ListLines(d, d.keys[..i])
      {
        var name := d.keys[i];
        var preset := At(d, name);
        var description := if "description" in preset then Text(preset["description"]) else "No description provided.";
        var line := "  - " + name + ": " + description;
        assert line == ListLine(name, preset);
        ListLinesStep(d, i);
        lines := lines + [line];
        i := i + 1;
      }
      assert d.keys[..|d.keys|] == d.keys;
    }
  }
}
