/**
 * The settings record collected by the quickstart prompts, the fields that are never
 * persisted, and the two map operations the driver applies to it: the save filter and
 * the replay merge (`dict.update`).
 */
module Settings {

  /** A JSON-like scalar of the record; `List` stands for list-valued entries such as
      `extensions`. */
  datatype Value = Str(s: string) | Bool(b: bool) | Int(i: int) | List(items: seq<Value>)

  /** A settings record: a flat map from field name to value. */
  type Settings = map<string, Value>

  /** Fields that are per-project and therefore never written to `setting.json`. */
  const ExcludeValue: seq<string> := ["project", "author", "path", "version", "release", "extensions"]

  /** Python truthiness, used by the `x and a or b` conditionals of the driver. */
  predicate Truthy(v: Value) {
    match v
    case Str(s) => s != ""
    case Bool(b) => b
    case Int(i) => i != 0
    case List(items) => items != []
  }

  /** The record written to `setting.json`: every field except the excluded ones. */
  function SaveFilter(d: Settings): (r: Settings)
    ensures forall k :: k in ExcludeValue ==> k !in r
    ensures forall k :: k in d && k !in ExcludeValue ==> k in r && r[k] == d[k]
    ensures r.Keys <= d.Keys
  {
    map k | k in d && k !in ExcludeValue :: d[k]
  }

  /** `d.update(saved)`: every saved field overrides, every other field of `d` stays. */
  function Merge(d: Settings, saved: Settings): (r: Settings)
    ensures r.Keys == d.Keys + saved.Keys
    ensures forall k :: k in saved ==> r[k] == saved[k]
    ensures forall k :: k in d && k !in saved ==> r[k] == d[k]
  {
    d + saved
  }

  /** Filtering a record that was already filtered changes nothing, so the record
      loaded from `setting.json` is saved back unchanged. */
  lemma SaveFilterIdempotent(d: Settings)
    ensures SaveFilter(SaveFilter(d)) == SaveFilter(d)
  {
  }

  /** The saved record is exactly the captured record minus the excluded fields:
      it is determined by, and only by, the non-excluded fields. */
  lemma SaveFilterDeterminedByReusable(d1: Settings, d2: Settings)
    ensures SaveFilter(d1) == SaveFilter(d2) <==>
            forall k :: k !in ExcludeValue ==> (k in d1 <==> k in d2) && (k in d1 ==> d1[k] == d2[k])
  {
  }

  /** Replaying the record saved by an earlier run: in the next session every reusable
      field of the earlier final record comes back with its value, while per-project
      fields keep whatever the new session had (they were never saved). */
  lemma ReplayRestoresReusable(final: Settings, d: Settings)
    ensures forall k :: k in final && k !in ExcludeValue ==> k in Merge(d, SaveFilter(final)) && Merge(d, SaveFilter(final))[k] == final[k]
    ensures forall k :: k in ExcludeValue ==> (k in Merge(d, SaveFilter(final)) <==> k in d)
    ensures forall k :: k in ExcludeValue && k in d ==> Merge(d, SaveFilter(final))[k] == d[k]
  {
  }
}
