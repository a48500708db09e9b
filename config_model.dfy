/**
 * The `configs` table (app/models/config_model.py): one row per key,
 * read with a default and written with an upsert.
 */
module ConfigModel {
  import opened Wrappers
  import opened Seqs

  /** A row of `configs`; `description` is a nullable column. */
  datatype ConfigRow = ConfigRow(id: nat, key: string, value: string, description: Option<string>, updatedAt: int)

  function RowId(r: ConfigRow): nat { r.id }
  function RowKey(r: ConfigRow): string { r.key }

  /** The table invariant: primary keys and `key` values (a `unique=True` column) are unique. */
  ghost predicate WellFormed(rows: seq<ConfigRow>) {
    UniqueBy(rows, RowId) && UniqueBy(rows, RowKey)
  }

  /** Python truthiness of an optional string: present and non-empty. */
  predicate Truthy(s: Option<string>) {
    s.Some? && s.value != ""
  }

  /** Position of the first row holding `key` (`Config.query.filter_by(key=key).first()`). */
  function FindKey(rows: seq<ConfigRow>, key: string): (i: Option<nat>)
    ensures i.None? <==> forall j :: 0 <= j < |rows| ==> rows[j].key != key
    ensures i.Some? ==> i.value < |rows| && rows[i.value].key == key
    ensures i.Some? ==> forall j :: 0 <= j < i.value ==> rows[j].key != key
  {
    if rows == [] then None
    else if rows[0].key == key then Some(0)
    else match FindKey(rows[1..], key)
      case None => None
      case Some(j) => Some(j + 1)
  }

  /** `Config.get_value(key, default)`: the stored value, or `default` when no row has the key. */
  function GetValue(rows: seq<ConfigRow>, key: string, default: string): (v: string)
    ensures (forall j :: 0 <= j < |rows| ==> rows[j].key != key) ==> v == default
    ensures (exists j :: 0 <= j < |rows| && rows[j].key == key) ==>
              exists j :: 0 <= j < |rows| && rows[j].key == key && v == rows[j].value
  {
    match FindKey(rows, key)
    case None => default
    case Some(i) => rows[i].value
  }

  /**
   * The table after `Config.set_value(key, value, description)` at time `now`:
   * the existing row gets the new value and time, and the new description only
   * when that is truthy; otherwise a new row is appended.
   */
  function Upsert(rows: seq<ConfigRow>, key: string, value: string, description: Option<string>, now: int): (r: seq<ConfigRow>)
    ensures |r| == |rows| + (if FindKey(rows, key).None? then 1 else 0)
  {
    match FindKey(rows, key)
    case Some(i) =>
      var current := rows[i];
      rows[i := current.(value := value, updatedAt := now,
                      description := if Truthy(description) then description else current.description)]
    case None =>
      rows + [ConfigRow(NextId(rows, RowId), key, value, description, now)]
  }

  /** After `set_value(k, v)`, `get_value(k)` returns `v`. */
  lemma {:induction false} GetAfterUpsert(rows: seq<ConfigRow>, key: string, value: string, description: Option<string>, now: int, default: string)
    ensures GetValue(Upsert(rows, key, value, description, now), key, default) == value
  {
    var r := Upsert(rows, key, value, description, now);
    match FindKey(rows, key)
    case Some(i) =>
      assert r[i].key == key;
      assert forall j :: 0 <= j < i ==> r[j] == rows[j];
      assert FindKey(r, key) == Some(i);
    case None =>
      assert r[|rows|].key == key;
      assert forall j :: 0 <= j < |rows| ==> r[j] == rows[j];
      assert FindKey(r, key) == Some(|rows|);
  }

  /** `set_value(k, v)` leaves the value read for every other key as it was. */
  lemma {:induction false} UpsertOtherKey(rows: seq<ConfigRow>, key: string, value: string, description: Option<string>, now: int, other: string, default: string)
    requires other != key
    ensures GetValue(Upsert(rows, key, value, description, now), other, default) == GetValue(rows, other, default)
  {
    var r := Upsert(rows, key, value, description, now);
    assert forall j :: 0 <= j < |rows| ==> r[j].key == rows[j].key && (r[j].key == other ==> r[j] == rows[j]);
    match FindKey(rows, other)
    case None =>
      assert FindKey(r, other).None?;
    case Some(i) =>
      assert FindKey(r, other) == Some(i);
  }

  /** The upsert never creates a second row for a key: a well-formed table stays well-formed. */
  lemma UpsertWellFormed(rows: seq<ConfigRow>, key: string, value: string, description: Option<string>, now: int)
    requires WellFormed(rows)
    ensures WellFormed(Upsert(rows, key, value, description, now))
  {
    var r := Upsert(rows, key, value, description, now);
    match FindKey(rows, key)
    case Some(i) =>
      ReplaceSameKeyUnique(rows, i, r[i], RowId);
      ReplaceSameKeyUnique(rows, i, r[i], RowKey);
    case None =>
      var row := r[|rows|];
      AppendFreshUnique(rows, row, RowId);
      AppendFreshUnique(rows, row, RowKey);
  }

  /**
   * On an update the description changes only when a truthy one is supplied;
   * on an insert the row carries the supplied description.
   */
  lemma UpsertDescription(rows: seq<ConfigRow>, key: string, value: string, description: Option<string>, now: int)
    ensures FindKey(rows, key).Some? ==>
      var i := FindKey(rows, key).value;
      Upsert(rows, key, value, description, now)[i].description ==
        (if Truthy(description) then description else rows[i].description)
    ensures FindKey(rows, key).None? ==>
      Upsert(rows, key, value, description, now)[|rows|].description == description
  {
  }

  /** The upstream settings (`get_openai_config` / `set_openai_config`). */
  datatype OpenAiConfig = OpenAiConfig(apiUrl: string, apiKey: string, model: string)

  const UrlKey := "openai_api_url"
  const KeyKey := "openai_api_key"
  const ModelKey := "openai_model"
  const DefaultModel := "Qwen/Qwen2-7B-Instruct"

  /** `Config.get_openai_config()`: the three settings, empty strings and the stock model name by default. */
  function GetOpenaiConfig(rows: seq<ConfigRow>): (c: OpenAiConfig)
    ensures rows == [] ==> c == OpenAiConfig("", "", DefaultModel)
  {
    OpenAiConfig(GetValue(rows, UrlKey, ""), GetValue(rows, KeyKey, ""), GetValue(rows, ModelKey, DefaultModel))
  }

  /** The table after `Config.set_openai_config(url, key, model)`: three upserts in this order. */
  function SetOpenaiConfig(rows: seq<ConfigRow>, apiUrl: string, apiKey: string, model: string, now: int): seq<ConfigRow>
  {
    var r1 := Upsert(rows, UrlKey, apiUrl, Some("OpenAI API URL"), now);
    var r2 := Upsert(r1, KeyKey, apiKey, Some("OpenAI API Key"), now);
    Upsert(r2, ModelKey, model, Some("OpenAI Model Name"), now)
  }

  /** Writing the upstream settings and reading them back gives what was written. */
  lemma SetThenGetOpenaiConfig(rows: seq<ConfigRow>, apiUrl: string, apiKey: string, model: string, now: int)
    ensures GetOpenaiConfig(SetOpenaiConfig(rows, apiUrl, apiKey, model, now)) == OpenAiConfig(apiUrl, apiKey, model)
  {
    var r1 := Upsert(rows, UrlKey, apiUrl, Some("OpenAI API URL"), now);
    var r2 := Upsert(r1, KeyKey, apiKey, Some("OpenAI API Key"), now);
    var r3 := Upsert(r2, ModelKey, model, Some("OpenAI Model Name"), now);
    GetAfterUpsert(rows, UrlKey, apiUrl, Some("OpenAI API URL"), now, "");
    UpsertOtherKey(r1, KeyKey, apiKey, Some("OpenAI API Key"), now, UrlKey, "");
    UpsertOtherKey(r2, ModelKey, model, Some("OpenAI Model Name"), now, UrlKey, "");
    GetAfterUpsert(r1, KeyKey, apiKey, Some("OpenAI API Key"), now, "");
    UpsertOtherKey(r2, ModelKey, model, Some("OpenAI Model Name"), now, KeyKey, "");
    GetAfterUpsert(r2, ModelKey, model, Some("OpenAI Model Name"), now, DefaultModel);
  }
}
