/**
 * Note import (`utils/importNotes.ts`): the text is parsed as JSON; anything
 * other than an array yields no notes, and an array is narrowed to the items
 * that are objects with a string `id` and a string `content`.
 */
module ImportNotes {
  import opened Wrappers
  import opened Seqs
  import opened Json

  /**
   * The light validation: `typeof item === "object"`, not `null`, and string
   * `id` and `content` properties. An array is an object too, but has no such
   * properties, so only JSON objects pass.
   */
  predicate IsNoteLike(item: Json) {
    GetString(item, "id").Some? && GetString(item, "content").Some?
  }

  function IsNoteLikeFn(): Json -> bool {
    item => IsNoteLike(item)
  }

  /** `importNotes`, with `JSON.parse(rawJson)` given as `parsed`; `None` is a parse that threw. */
  function Import(parsed: Option<Json>): (r: seq<Json>)
    ensures parsed.None? ==> r == []
    ensures parsed.Some? && !parsed.value.JArray? ==> r == []
    ensures forall i :: 0 <= i < |r| ==> r[i].JObject? && IsNoteLike(r[i])
    ensures parsed.Some? && parsed.value.JArray? ==>
              IsSubsequence(r, parsed.value.items) &&
              forall i :: 0 <= i < |parsed.value.items| && IsNoteLike(parsed.value.items[i]) ==>
                parsed.value.items[i] in r
  {
    match parsed
    case Some(JArray(items)) =>
      FilterIsSubsequence(IsNoteLikeFn(), items);
      Filter(IsNoteLikeFn(), items)
    case _ => []
  }

  /** Each valid item is imported exactly as often as it occurs; invalid items never are. */
  lemma ImportCounts(items: seq<Json>, x: Json)
    ensures multiset(Import(Some(JArray(items))))[x] == if IsNoteLike(x) then multiset(items)[x] else 0
  {
    FilterCount(IsNoteLikeFn(), items, x);
  }

  /** An array whose every item is valid is imported whole, in order. */
  lemma ImportAllValid(items: seq<Json>)
    requires forall i :: 0 <= i < |items| ==> IsNoteLike(items[i])
    ensures Import(Some(JArray(items))) == items
  {
    FilterAll(IsNoteLikeFn(), items);
  }

  /** Importing what was imported changes nothing. */
  lemma ImportIdempotent(parsed: Option<Json>)
    ensures Import(Some(JArray(Import(parsed)))) == Import(parsed)
  {
    if parsed.Some? && parsed.value.JArray? {
      FilterIdempotent(IsNoteLikeFn(), parsed.value.items);
    } else {
      assert Import(parsed) == [];
    }
  }

  /**
   * Exporting the imported notes as JSON text and importing that text gives
   * the same notes, for a parsed value that a JavaScript object graph can
   * represent exactly (no repeated or integer-like keys, safe integers).
   */
  lemma ExportImportRoundTrip(c: Codec, parsed: Option<Json>)
    requires RoundTrips(c)
    requires parsed.Some? ==> Canonical(parsed.value)
    ensures Import(c.parse(c.stringify(JArray(Import(parsed))))) == Import(parsed)
  {
    ImportIdempotent(parsed);
    var kept := Import(parsed);
    if parsed.Some? && parsed.value.JArray? {
      CanonicalSubarray(parsed.value.items, kept);
    }
    assert Canonical(JArray(kept));
  }
}
