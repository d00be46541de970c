/**
 * What the editor's operations promise about the skill map, proved about the
 * specification functions of module SkillDefEditor (which the methods of
 * SkillDefinitionsEditor are proved to compute).
 */
module SkillDefEditorProperties {
  import opened SkillDefEditor

  /** `load_default_data` leaves exactly one skill, "skill_id", with empty texts. */
  lemma DefaultStateConsistent()
    ensures var s := EditorState([DefaultId], map[DefaultId := EmptySkill], None);
      Consistent(s) && s.data.Keys == {"skill_id"} && s.data["skill_id"] == Skill("", "")
  {
    var s := EditorState([DefaultId], map[DefaultId := EmptySkill], None);
    assert forall id :: id in s.data ==> id == DefaultId;
  }

  // ---------------------------------------------------------------------------
  // load_skill_to_editor

  /** Opening a skill keeps the state consistent; an id that is not a key changes nothing. */
  lemma SelectEffect(s: EditorState, skillId: string)
    requires Consistent(s)
    ensures Consistent(Select(s, skillId))
    ensures skillId !in s.data ==> Select(s, skillId) == s
    ensures Select(s, skillId).current == Some(skillId) <==> skillId in s.data || s.current == Some(skillId)
  {
  }

  // ---------------------------------------------------------------------------
  // apply_changes

  /** Without an open skill, with an empty id, or with an id another skill has, nothing changes. */
  lemma ApplyRejected(s: EditorState, newId: string, skill: Skill)
    ensures ApplyCheck(s, newId) == NoSelection <==> !HasSelection(s)
    ensures ApplyCheck(s, newId) == EmptyId <==> HasSelection(s) && newId == ""
    ensures ApplyCheck(s, newId) == IdTaken <==>
      HasSelection(s) && newId != "" && newId != s.current.value && newId in s.data
    ensures ApplyCheck(s, newId) != Applied ==> AfterApply(s, newId, skill) == s
  {
  }

  /** Appending an id that is not in the order, then removing it, gives the order back. */
  lemma {:induction false} RemoveAppended(ids: seq<string>, id: string)
    requires id !in ids
    ensures Remove(ids + [id], id) == ids
  {
    if |ids| == 0 {
      assert [] + [id] == [id];
      assert Remove([id], id) == [] + Remove([], id);
    } else {
      assert (ids + [id])[0] == ids[0] && (ids + [id])[1..] == ids[1..] + [id];
      RemoveAppended(ids[1..], id);
      assert [ids[0]] + ids[1..] == ids;
    }
  }

  /**
   * A successful `apply_changes`: `newId` maps to the new record and is the open
   * skill, the old id is gone when it was renamed, every other entry is as it
   * was, and the number of skills is unchanged.
   */
  lemma ApplyEffect(s: EditorState, newId: string, skill: Skill)
    requires Consistent(s) && ApplyCheck(s, newId) == Applied
    ensures var r, oldId := AfterApply(s, newId, skill), s.current.value;
      && Consistent(r)
      && newId in r.data && r.data[newId] == skill
      && r.current == Some(newId)
      && (newId != oldId ==> oldId !in r.data && r.ids == Remove(s.ids, oldId) + [newId])
      && (newId == oldId ==> r.ids == s.ids)
      && (forall k :: k != oldId && k != newId ==> (k in r.data <==> k in s.data))
      && (forall k :: k != oldId && k != newId && k in s.data ==> r.data[k] == s.data[k])
      && |r.ids| == |s.ids|
      && |r.data.Keys| == |s.data.Keys|
  {
    var r, oldId := AfterApply(s, newId, skill), s.current.value;
    if newId != oldId {
      RemoveDistinct(s.ids, oldId);
      AppendFresh(Remove(s.ids, oldId), newId);
    }
    assert Consistent(r);
    ValidCard(s);
    ValidCard(r);
  }

  /** Applying the same values a second time changes nothing more. */
  lemma ApplyIdempotent(s: EditorState, newId: string, skill: Skill)
    ensures var r := AfterApply(s, newId, skill); AfterApply(r, newId, skill) == r
  {
    var r := AfterApply(s, newId, skill);
    if ApplyCheck(s, newId) == Applied {
      assert ApplyCheck(r, newId) == Applied;
      assert r.data[newId := skill] == r.data;
    }
  }

  /** Renaming a skill and then renaming it back restores the map, with the new record under the old id. */
  lemma RenameBack(s: EditorState, newId: string, skill: Skill)
    requires Consistent(s) && ApplyCheck(s, newId) == Applied && newId != s.current.value
    ensures var oldId := s.current.value;
      var back := AfterApply(AfterApply(s, newId, skill), oldId, skill);
      && ApplyCheck(AfterApply(s, newId, skill), oldId) == Applied
      && back.data == s.data[oldId := skill]
      && back.current == s.current
  {
    var oldId := s.current.value;
    var r := AfterApply(s, newId, skill);
    assert r.data == (s.data - {oldId})[newId := skill] && r.current == Some(newId);
    assert ApplyCheck(r, oldId) == Applied;
    var back := AfterApply(r, oldId, skill);
    assert back.data == (r.data - {newId})[oldId := skill];
    assert back.data.Keys == s.data[oldId := skill].Keys;
  }

  // ---------------------------------------------------------------------------
  // create_new_skill

  /**
   * `create_new_skill` adds exactly one key, the first unused candidate, with an
   * empty record, at the end of the order, and opens it; nothing else changes.
   */
  lemma CreateEffect(s: EditorState)
    requires Consistent(s)
    ensures var r, id := AfterCreate(s), Candidate(FirstFree(s.data.Keys));
      && Consistent(r)
      && id !in s.data
      && r.data == s.data[id := EmptySkill]
      && r.ids == s.ids + [id]
      && r.current == Some(id)
      && |r.data.Keys| == |s.data.Keys| + 1
  {
    var id := Candidate(FirstFree(s.data.Keys));
    AppendFresh(s.ids, id);
  }

  /** The ids tried in turn are "new_skill", "new_skill_1", "new_skill_2", ..., "new_skill_10", ... */
  lemma CandidateNames()
    ensures Candidate(0) == "new_skill"
    ensures Candidate(1) == "new_skill_1"
    ensures Candidate(2) == "new_skill_2"
    ensures Candidate(10) == "new_skill_10"
  {
    assert Decimal(10) == Decimal(1) + [Digit(0)];
  }

  /** From the default state, two new skills are "new_skill", then "new_skill_1". */
  lemma CreateTwiceFromDefault()
    ensures var s0 := EditorState([DefaultId], map[DefaultId := EmptySkill], None);
      var s1 := AfterCreate(s0);
      var s2 := AfterCreate(s1);
      && s1.ids == ["skill_id", "new_skill"]
      && s2.ids == ["skill_id", "new_skill", "new_skill_1"]
      && s2.current == Some("new_skill_1")
  {
    var s0 := EditorState([DefaultId], map[DefaultId := EmptySkill], None);
    CandidateNames();
    assert Candidate(0) !in s0.data;
    assert FirstFree(s0.data.Keys) == 0;
    var s1 := AfterCreate(s0);
    assert s1.data.Keys == {"skill_id", "new_skill"};
    assert Candidate(0) in s1.data && Candidate(1) !in s1.data;
    assert FirstFree(s1.data.Keys) == 1;
  }

  // ---------------------------------------------------------------------------
  // delete_current_skill

  /**
   * A confirmed delete with an open skill removes exactly that key and leaves
   * no skill open; without either, nothing changes.
   */
  lemma DeleteEffect(s: EditorState, confirmed: bool)
    requires Consistent(s)
    ensures var r := AfterDelete(s, confirmed);
      && Consistent(r)
      && (!HasSelection(s) || !confirmed ==> r == s)
      && (HasSelection(s) && confirmed ==>
            var id := s.current.value;
            && r.ids == Remove(s.ids, id)
            && r.data == s.data - {id}
            && id !in r.data
            && r.current == None
            && |r.ids| == |s.ids| - 1
            && |r.data.Keys| == |s.data.Keys| - 1)
  {
    if HasSelection(s) && confirmed {
      RemoveDistinct(s.ids, s.current.value);
    }
  }

  /** Deleting a freshly created skill gives back the map and its order, with no skill open. */
  lemma CreateThenDelete(s: EditorState)
    requires Consistent(s)
    ensures var r := AfterDelete(AfterCreate(s), true);
      r.ids == s.ids && r.data == s.data && r.current == None
  {
    var id := Candidate(FirstFree(s.data.Keys));
    var c := AfterCreate(s);
    assert HasSelection(c) && c.current.value == id by {
      assert id[..|NewSkillBase|] == NewSkillBase;
    }
    assert id !in s.ids;
    RemoveAppended(s.ids, id);
    assert c.data - {id} == s.data;
  }
}
