/** The clear-buffs parser: a deterministic template id from the buff to
    remove, its target and the side it affects. */
module ClearBuffs {
  import opened Strings
  import opened Json
  import opened Tables
  import opened Records
  import opened Describe

  const ClearId := JStr("clear_buffs_effect")

  /** `x.lower()` of a field read with a text default. */
  function LowerField(fs: Fields, k: string, default: string): Outcome<string> {
    LowerOf(GetOr(fs, k, JStr(default)))
  }

  /** The side a buff name decides on its own: `allies` for a debuff,
      `enemies` for another buff, "" otherwise. */
  function NameSide(buff: string): (r: string)
    ensures Contains(buff, "debuff") ==> r == "allies"
    ensures !Contains(buff, "debuff") && Contains(buff, "buff") ==> r == "enemies"
    ensures !Contains(buff, "buff") && !Contains(buff, "debuff") ==> r == ""
  {
    if Contains(buff, "debuff") then "allies" else if Contains(buff, "buff") then "enemies" else ""
  }

  /** The side affected: the buff name first, then `buffToRemoveSideAffected`,
      `sideAffected` and `directEffect.sideAffected` in turn, and finally
      `allies` for a debuff and `enemies` otherwise. A field that is not
      text, or a `directEffect` that is not a dict, raises AttributeError. */
  function ClearSide(special: Fields, buff: string): (r: Outcome<string>)
    ensures r.Ok? ==> r.value != ""
    ensures NameSide(buff) != "" ==> r == Ok(NameSide(buff))
    ensures NameSide(buff) == "" && LowerField(special, "buffToRemoveSideAffected", "").Crash? ==> r.Crash?
    ensures (NameSide(buff) == "" && LowerField(special, "buffToRemoveSideAffected", "").Ok? &&
             LowerField(special, "buffToRemoveSideAffected", "").value != "") ==>
      r == Ok(LowerField(special, "buffToRemoveSideAffected", "").value)
    ensures (NameSide(buff) == "" && LowerField(special, "buffToRemoveSideAffected", "") == Ok("") &&
             LowerField(special, "sideAffected", "").Crash?) ==> r.Crash?
    ensures (NameSide(buff) == "" && LowerField(special, "buffToRemoveSideAffected", "") == Ok("") &&
             LowerField(special, "sideAffected", "").Ok? && LowerField(special, "sideAffected", "").value != "") ==>
      r == Ok(LowerField(special, "sideAffected", "").value)
    ensures (NameSide(buff) == "" && LowerField(special, "buffToRemoveSideAffected", "") == Ok("") &&
             LowerField(special, "sideAffected", "") == Ok("") && !GetOr(special, "directEffect", JObj([])).JObj?) ==>
      r.Crash?
    ensures (NameSide(buff) == "" && LowerField(special, "buffToRemoveSideAffected", "") == Ok("") &&
             LowerField(special, "sideAffected", "") == Ok("") && GetOr(special, "directEffect", JObj([])).JObj? &&
             LowerField(GetOr(special, "directEffect", JObj([])).fields, "sideAffected", "").Crash?) ==>
      r.Crash?
    ensures (NameSide(buff) == "" && LowerField(special, "buffToRemoveSideAffected", "") == Ok("") &&
             LowerField(special, "sideAffected", "") == Ok("") && GetOr(special, "directEffect", JObj([])).JObj? &&
             LowerField(GetOr(special, "directEffect", JObj([])).fields, "sideAffected", "").Ok?) ==>
      r == Ok(if LowerField(GetOr(special, "directEffect", JObj([])).fields, "sideAffected", "").value != ""
              then LowerField(GetOr(special, "directEffect", JObj([])).fields, "sideAffected", "").value
              else "enemies")
  {
    if NameSide(buff) != "" then Ok(NameSide(buff))
    else
      var s1 :- LowerField(special, "buffToRemoveSideAffected", "");
      if s1 != "" then Ok(s1)
      else
        var s2 :- LowerField(special, "sideAffected", "");
        if s2 != "" then Ok(s2)
        else
          var de := GetOr(special, "directEffect", JObj([]));
          if !de.JObj? then Crash(NoAttribute(de, "get"))
          else
            var s3 :- LowerField(de.fields, "sideAffected", "");
            if s3 != "" then Ok(s3)
            else Ok(if Contains(buff, "debuff") then "allies" else "enemies")
  }

  /** `specials.v2.clearbuffs.<buff>.<target>.<side>` */
  function ClearLangId(special: Fields): (r: Outcome<string>)
  {
    var buff :- LowerField(special, "buffToRemove", "");
    var target :- LowerField(special, "buffToRemoveTargetType", "all");
    var side :- ClearSide(special, buff);
    Ok("specials.v2.clearbuffs." + buff + "." + target + "." + side)
  }

  /** The template id used: the built id, else the id with `.latest`, else
      none. */
  function Resolved(id: string, db: LangDb): (r: Option<string>)
    ensures InLang(db, id) ==> r == Some(id)
    ensures !InLang(db, id) && InLang(db, id + ".latest") ==> r == Some(id + ".latest")
    ensures r.None? <==> !InLang(db, id) && !InLang(db, id + ".latest")
  {
    if InLang(db, id) then Some(id)
    else if InLang(db, id + ".latest") then Some(id + ".latest")
    else None
  }

  function NotFoundWarning(id: string): string {
    "[parse_clear_buffs]: lang_id '" + id + "' not found in lang_db."
  }

  function ErrorWarning(special: Fields, reason: string): string {
    "Error parsing clear_buffs for '" + PyStr(GetOr(special, "id", JStr("Unknown Special"))) + "': " + reason
  }

  /** `parse_clear_buffs(special_data, lang_db, parsers)`: no record and
      no warning without `buffToRemove`; a failure record whose text is its
      one warning when no template exists; on any exception no record and
      one warning; otherwise the unfilled template with no parameters and
      no nested effects. */
  function ClearBuffsOf(special: Fields, db: LangDb): (r: (Option<Item>, seq<string>))
    ensures !Has(special, "buffToRemove") ==> r == (None, [])
    ensures |r.1| <= 1
    ensures r.0.Some? && r.0.value.Failed? ==> r.1 == [r.0.value.text] && r.0.value.id == ClearId
    ensures r.0.Some? && r.0.value.Described? ==>
      r.1 == [] && InLang(db, r.0.value.langId) && r.0.value.id == ClearId &&
      r.0.value.params == [] && r.0.value.nested == Effects([]) &&
      r.0.value.en == TextOr(LangGet(db, r.0.value.langId).value.en) &&
      r.0.value.ja == TextOr(LangGet(db, r.0.value.langId).value.ja)
    ensures r.0.Some? ==> r.0.value.Failed? || r.0.value.Described?
    ensures Has(special, "buffToRemove") && ClearLangId(special).Crash? ==>
      r == (None, [ErrorWarning(special, ClearLangId(special).reason)])
    ensures Has(special, "buffToRemove") && ClearLangId(special).Ok? && Resolved(ClearLangId(special).value, db).None? ==>
      r == (Some(Failed(ClearId, NotFoundWarning(ClearLangId(special).value))), [NotFoundWarning(ClearLangId(special).value)])
    ensures Has(special, "buffToRemove") && ClearLangId(special).Ok? && Resolved(ClearLangId(special).value, db).Some? ==>
      r.1 == [] && r.0.Some? && r.0.value.Described? && r.0.value.langId == Resolved(ClearLangId(special).value, db).value &&
      Texts(r.0.value.en, r.0.value.ja) == Description(Resolved(ClearLangId(special).value, db).value, [], db)
  {
    if !Has(special, "buffToRemove") then (None, [])
    else match ClearLangId(special)
      case Crash(reason) => (None, [ErrorWarning(special, reason)])
      case Ok(id) =>
        match Resolved(id, db)
        case None => (Some(Failed(ClearId, NotFoundWarning(id))), [NotFoundWarning(id)])
        case Some(langId) =>
          var texts := Description(langId, [], db);
          (Some(Described(ClearId, langId, [], texts.en, texts.ja, Effects([]), None)), [])
  }

  /** A debuff is cleared from the allies and another buff from the
      enemies, whatever the other side fields say. */
  lemma NameDecidesSide(special: Fields, buff: string)
    requires LowerField(special, "buffToRemove", "") == Ok(buff)
    requires LowerField(special, "buffToRemoveTargetType", "all").Ok?
    requires Contains(buff, "buff")
    ensures ClearLangId(special) == Ok("specials.v2.clearbuffs." + buff + "." +
      LowerField(special, "buffToRemoveTargetType", "all").value + "." +
      (if Contains(buff, "debuff") then "allies" else "enemies"))
  {
  }

  /** A `buffToRemove` that is not text yields one error warning and no
      record. */
  lemma BuffNotText(special: Fields, db: LangDb)
    requires Has(special, "buffToRemove") && !GetJ(special, "buffToRemove").JStr?
    ensures ClearBuffsOf(special, db).0 == None
    ensures ClearBuffsOf(special, db).1 ==
      [ErrorWarning(special, NoAttribute(GetJ(special, "buffToRemove"), "lower"))]
  {
    assert GetOr(special, "buffToRemove", JStr("")) == GetJ(special, "buffToRemove");
  }
}
