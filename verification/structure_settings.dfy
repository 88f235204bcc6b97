/**
 * src/components/StructureSettings.tsx: the schema settings screen. Its `fields`
 * and `saved` state are a class; the list edits are those of Schema; browser
 * storage is a LocalStore object and JSON text a Codec the model does not open.
 */
module StructureSettings {
  import opened Wrappers
  import opened Types
  import Schema

  /** The storage key the schema is kept under. */
  const StorageKey := "structure_settings"

  /** The schema used when nothing usable is stored. */
  const DefaultStructure: seq<Field> := [
    Field("Title", StringType, Some("タイトルまたは件名")),
    Field("Date_start", DateType, Some("開始日（YYYY-MM-DD形式）")),
    Field("Date_end", DateType, Some("終了日（YYYY-MM-DD形式）")),
    Field("requester", StringType, Some("依頼者名"))
  ]

  /** The default schema: four fields, a title, two dates and a requester, with distinct names. */
  lemma DefaultStructureShape()
    ensures |DefaultStructure| == 4
    ensures DefaultStructure[0].name == "Title" && DefaultStructure[0].dtype == StringType
    ensures DefaultStructure[1].name == "Date_start" && DefaultStructure[1].dtype == DateType
    ensures DefaultStructure[2].name == "Date_end" && DefaultStructure[2].dtype == DateType
    ensures DefaultStructure[3].name == "requester" && DefaultStructure[3].dtype == StringType
    ensures forall i, j :: 0 <= i < j < |DefaultStructure| ==> DefaultStructure[i].name != DefaultStructure[j].name
  {
  }

  /** The descriptor `addField` appends here: an empty name, type string, an empty description. */
  const BlankField := Field("", StringType, Some(""))

  /**
   * `JSON.stringify` and `JSON.parse` of a schema, as opaque functions: `decode`
   * is `None` where `JSON.parse` throws.
   */
  datatype Codec = Codec(encode: seq<Field> -> string, decode: string -> Option<seq<Field>>)

  /**
   * What the load effect sets `fields` to, given what `localStorage.getItem`
   * returned: a stored non-empty text that parses, else the default schema.
   */
  function LoadedStructure(stored: Option<string>, codec: Codec): (fields: seq<Field>)
    ensures fields == DefaultStructure || (stored.Some? && stored.value != "" && codec.decode(stored.value) == Some(fields))
    ensures stored.None? ==> fields == DefaultStructure
  {
    if stored.Some? && stored.value != "" then
      match codec.decode(stored.value)
      case Some(fs) => fs
      case None => DefaultStructure
    else DefaultStructure
  }

  /** Nothing stored, an empty stored text and an unparsable one all load the default schema. */
  lemma LoadFallsBackToDefault(stored: Option<string>, codec: Codec)
    requires stored.None? || stored.value == "" || codec.decode(stored.value).None?
    ensures LoadedStructure(stored, codec) == DefaultStructure
  {
  }

  /** A stored text that parses loads exactly what it parses to. */
  lemma LoadParsed(text: string, codec: Codec, fs: seq<Field>)
    requires text != "" && codec.decode(text) == Some(fs)
    ensures LoadedStructure(Some(text), codec) == fs
  {
  }

  /**
   * Loading what was saved gives back the saved list, for a schema whose
   * serialisation is non-empty and parses back to it.
   */
  lemma LoadAfterSave(fs: seq<Field>, codec: Codec)
    requires codec.encode(fs) != "" && codec.decode(codec.encode(fs)) == Some(fs)
    ensures LoadedStructure(Some(codec.encode(fs)), codec) == fs
  {
  }

  /** The browser's `localStorage`: string values under string keys. */
  class LocalStore {
    var items: map<string, string>

    constructor(items: map<string, string>)
      ensures this.items == items
    {
      this.items := items;
    }

    /** getItem: the value under `key`, or null. */
    function GetItem(key: string): (r: Option<string>)
      reads this
      ensures r.Some? <==> key in items
      ensures r.Some? ==> r.value == items[key]
    {
      if key in items then Some(items[key]) else None
    }

    /**
     * setItem: stores `value` under `key` when the browser accepts the write;
     * `accepted` is false where it throws (quota exceeded, storage disabled).
     */
    method SetItem(key: string, value: string, accepted: bool) returns (ok: bool)
      modifies this
      ensures ok == accepted
      ensures ok ==> items == old(items)[key := value]
      ensures !ok ==> items == old(items)
    {
      ok := accepted;
      if ok {
        items := items[key := value];
      }
    }
  }

  /** The component's state. */
  class Settings {
    var fields: seq<Field>
    var saved: bool

    /** Mounting: an empty list and nothing saved, before the load effect runs. */
    constructor()
      ensures fields == [] && !saved
    {
      fields := [];
      saved := false;
    }

    /** The load effect: the stored schema when there is one that parses, else the default. */
    method Load(store: LocalStore, codec: Codec)
      modifies this`fields
      ensures fields == LoadedStructure(store.GetItem(StorageKey), codec)
      ensures fields == DefaultStructure || store.GetItem(StorageKey).Some?
    {
      var savedStructure := store.GetItem(StorageKey);
      if savedStructure.Some? && savedStructure.value != "" {
        var parsed := codec.decode(savedStructure.value);
        if parsed.Some? {
          fields := parsed.value;
        } else {
          fields := DefaultStructure;
        }
      } else {
        fields := DefaultStructure;
      }
    }

    /** addField: a blank field with an empty description at the end. */
    method AddField()
      modifies this`fields
      ensures |fields| == |old(fields)| + 1
      ensures fields[..|old(fields)|] == old(fields)
      ensures fields[|old(fields)|] == BlankField
    {
      fields := fields + [BlankField];
    }

    /** removeField: the list without the field at `index`, or unchanged when `index` is outside it. */
    method RemoveField(index: int)
      modifies this`fields
      ensures fields == Schema.RemoveField(old(fields), index)
      ensures 0 <= index < |old(fields)| ==> fields == old(fields)[..index] + old(fields)[index + 1..]
      ensures !(0 <= index < |old(fields)|) ==> fields == old(fields)
    {
      fields := Schema.RemoveField(fields, index);
    }

    /** updateField: the field at `index` merged with `patch`, the others unchanged. */
    method UpdateField(index: int, patch: Patch)
      modifies this`fields
      ensures fields == Schema.UpdateField(old(fields), index, patch)
      ensures |fields| == |old(fields)|
      ensures 0 <= index < |fields| ==> fields[index] == Merge(old(fields)[index], patch)
      ensures forall k :: 0 <= k < |fields| && k != index ==> fields[k] == old(fields)[k]
    {
      fields := Schema.UpdateField(fields, index, patch);
    }

    /**
     * saveStructure: writes the serialised list under the storage key and sets
     * `saved`; a write the browser refuses changes neither the store nor `saved`.
     */
    method Save(store: LocalStore, codec: Codec, accepted: bool)
      modifies this`saved, store
      ensures accepted ==> store.items == old(store.items)[StorageKey := codec.encode(fields)] && saved
      ensures !accepted ==> store.items == old(store.items) && saved == old(saved)
    {
      var ok := store.SetItem(StorageKey, codec.encode(fields), accepted);
      if ok {
        saved := true;
      }
    }
  }

  /**
   * Saving and then mounting the screen again restores the saved list, given a
   * serialisation that is non-empty and round-trips for it.
   */
  method SaveThenReload(settings: Settings, store: LocalStore, codec: Codec) returns (reloaded: Settings)
    requires codec.encode(settings.fields) != "" && codec.decode(codec.encode(settings.fields)) == Some(settings.fields)
    modifies settings`saved, store
    ensures fresh(reloaded)
    ensures store.items == old(store.items)[StorageKey := codec.encode(old(settings.fields))]
    ensures settings.saved && settings.fields == old(settings.fields)
    ensures reloaded.fields == old(settings.fields)
  {
    settings.Save(store, codec, true);
    reloaded := new Settings();
    reloaded.Load(store, codec);
    LoadAfterSave(settings.fields, codec);
  }
}
