/**
 * The data state of the skill definitions editor: an insertion-ordered map from
 * skill id to its display text and description, and the id of the skill open in
 * the editor. The Qt widgets are not modelled: the values the methods read from
 * them (the stripped id field, the display and description fields, the answer to
 * a confirmation dialog) are parameters, and the dialogs they show are results.
 *
 * The pure functions on EditorState (Select, AfterApply, AfterCreate, AfterDelete)
 * specify each operation; the class SkillDefinitionsEditor follows the source's
 * methods and is proved to compute them.
 */
module SkillDefEditor {

  datatype Option<T> = None | Some(value: T)

  /** One entry of `skill_data`: `{"display": ..., "description": ...}`. */
  datatype Skill = Skill(display: string, description: string)

  /**
   * The editor's data: `ids` lists the keys of `skill_data` in insertion order
   * (the order the skills list and the saved JSON show), `data` maps them to
   * their records, `current` is `current_skill_id`.
   */
  datatype EditorState = EditorState(ids: seq<string>, data: map<string, Skill>, current: Option<string>)

  /** What `apply_changes` did, by the message it shows. */
  datatype ApplyOutcome =
    | NoSelection    // no skill is open: returns silently
    | EmptyId        // "Skill ID cannot be empty!"
    | IdTaken        // "Skill ID '...' already exists!"
    | Applied        // "Changes applied successfully!"

  const DefaultId := "skill_id"
  const EmptySkill := Skill("", "")
  const NewSkillBase := "new_skill"

  // ---------------------------------------------------------------------------
  // The invariant of the state

  predicate Distinct(ids: seq<string>)
  {
    forall i, j :: 0 <= i < j < |ids| ==> ids[i] != ids[j]
  }

  /**
   * `ids` is the key order of `data`, without repeats, and the open skill, if
   * any, is one of the keys.
   */
  predicate Consistent(s: EditorState)
  {
    && Distinct(s.ids)
    && (forall id :: id in s.ids ==> id in s.data)
    && (forall id :: id in s.data ==> id in s.ids)
    && (s.current.Some? ==> s.current.value in s.data)
  }

  /** Python truthiness of `current_skill_id`: neither None nor the empty string. */
  predicate HasSelection(s: EditorState)
  {
    s.current.Some? && s.current.value != ""
  }

  /** `ids` without `id`, the others in their order (`del d[id]` on the key order). */
  function Remove(ids: seq<string>, id: string): (r: seq<string>)
    ensures forall x :: x in r <==> x in ids && x != id
  {
    if |ids| == 0 then []
    else (if ids[0] == id then [] else [ids[0]]) + Remove(ids[1..], id)
  }

  /** `del` keeps the order of the other ids: removing from `a + b` removes from each part. */
  lemma {:induction false} RemoveConcat(a: seq<string>, b: seq<string>, id: string)
    ensures Remove(a + b, id) == Remove(a, id) + Remove(b, id)
    decreases |a|
  {
    if |a| == 0 {
      assert a + b == b;
    } else {
      assert (a + b)[0] == a[0] && (a + b)[1..] == a[1..] + b;
      RemoveConcat(a[1..], b, id);
    }
  }

  /** Deleting a key that occurs once closes the gap: the ids before and after it keep their order. */
  lemma RemoveMiddle(a: seq<string>, id: string, b: seq<string>)
    requires id !in a && id !in b
    ensures Remove(a + [id] + b, id) == a + b
  {
    assert Remove(a + [id], id) == a by {
      RemoveConcat(a, [id], id);
      RemoveAbsent(a, id);
      assert [id][1..] == [];
      assert Remove([id], id) == [];
      assert a + [] == a;
    }
    assert Remove(b, id) == b by {
      RemoveAbsent(b, id);
    }
    RemoveConcat(a + [id], b, id);
  }

  // ---------------------------------------------------------------------------
  // Fresh ids for new skills: "new_skill", "new_skill_1", "new_skill_2", ...

  /** The decimal digit d, as `str` writes it. */
  function Digit(d: nat): (c: char)
    requires d < 10
    ensures '0' <= c <= '9'
    ensures c as int == '0' as int + d
  {
    (d + '0' as int) as char
  }

  /** `str(n)` for a natural number n: its decimal digits, no leading zero. */
  function Decimal(n: nat): (r: string)
    ensures |r| >= 1
    ensures n >= 10 <==> |r| >= 2
    ensures forall i :: 0 <= i < |r| ==> '0' <= r[i] <= '9'
  {
    if n < 10 then [Digit(n)] else Decimal(n / 10) + [Digit(n % 10)]
  }

  /** The number a string of decimal digits spells, read left to right in base 10. */
  function DigitsValue(s: string): int
  {
    if |s| == 0 then 0 else 10 * DigitsValue(s[..|s| - 1]) + (s[|s| - 1] as int - '0' as int)
  }

  /** `Decimal(n)` is `str(n)`: its digits spell n in base 10, with no leading zero. */
  lemma {:induction false} DecimalValue(n: nat)
    ensures DigitsValue(Decimal(n)) == n
    ensures |Decimal(n)| > 1 ==> Decimal(n)[0] != '0'
    decreases n
  {
    var d := Decimal(n);
    if n < 10 {
      assert d[..0] == [];
    } else {
      var h := Decimal(n / 10);
      DecimalValue(n / 10);
      assert d[..|d| - 1] == h && d[0] == h[0];
      if |h| == 1 {
        assert h[0] == Digit(n / 10);
      }
    }
  }

  /** The k-th id `create_new_skill` tries: the base name, then the base name with `_k`. */
  function Candidate(k: nat): (id: string)
    ensures k == 0 <==> id == NewSkillBase
    ensures |NewSkillBase| <= |id| && id[..|NewSkillBase|] == NewSkillBase
  {
    if k == 0 then NewSkillBase else NewSkillBase + "_" + Decimal(k)
  }

  /** The candidates tried before index n. */
  function Tried(n: nat): set<string>
  {
    set k | 0 <= k < n :: Candidate(k)
  }

  /**
   * The index of the first candidate, from the k-th on, that is not a key of
   * `keys`: the candidates before it, from the k-th on, are all keys, so there
   * are at most |keys| of them.
   */
  function FirstFreeFrom(keys: set<string>, k: nat): (r: nat)
    requires forall j :: 0 <= j < k ==> Candidate(j) in keys
    ensures k <= r <= |keys|
    ensures Candidate(r) !in keys
    ensures forall j :: k <= j < r ==> Candidate(j) in keys
    decreases |keys| - k
  {
    TriedBound(keys, k);
    if Candidate(k) !in keys then k
    else
      TriedBound(keys, k + 1);
      FirstFreeFrom(keys, k + 1)
  }

  /** The index of the id `create_new_skill` picks for a map with keys `keys`. */
  function FirstFree(keys: set<string>): (r: nat)
    ensures r <= |keys|
    ensures Candidate(r) !in keys
    ensures forall j :: 0 <= j < r ==> Candidate(j) in keys
  {
    FirstFreeFrom(keys, 0)
  }

  // ---------------------------------------------------------------------------
  // The operations, on values

  /**
   * `load_skill_to_editor(skill_id)`: opens the skill when `skill_id` is a key,
   * and otherwise changes nothing.
   */
  function Select(s: EditorState, skillId: string): (r: EditorState)
    ensures r.ids == s.ids && r.data == s.data
    ensures r.current == if skillId in s.data then Some(skillId) else s.current
  {
    if skillId in s.data then s.(current := Some(skillId)) else s
  }

  /** Which path `apply_changes` takes for the stripped id `newId`. */
  function ApplyCheck(s: EditorState, newId: string): ApplyOutcome
  {
    if !HasSelection(s) then NoSelection
    else if newId == "" then EmptyId
    else if newId != s.current.value && newId in s.data then IdTaken
    else Applied
  }

  /**
   * The state after `apply_changes`: on the Applied path the open skill's entry
   * is replaced by `newId := skill` (deleted and re-added at the end of the key
   * order when the id changed, updated in place when it did not) and `newId`
   * becomes the open skill; on every other path nothing changes.
   */
  function AfterApply(s: EditorState, newId: string, skill: Skill): EditorState
  {
    if ApplyCheck(s, newId) != Applied then s
    else
      var old_id := s.current.value;
      if newId != old_id then
        EditorState(Remove(s.ids, old_id) + [newId], (s.data - {old_id})[newId := skill], Some(newId))
      else
        EditorState(s.ids, s.data[newId := skill], Some(newId))
  }

  /** The state after `create_new_skill`: the first free candidate added with an empty record, and opened. */
  function AfterCreate(s: EditorState): EditorState
  {
    var id := Candidate(FirstFree(s.data.Keys));
    Select(EditorState(s.ids + [id], s.data[id := EmptySkill], s.current), id)
  }

  /**
   * The state after `delete_current_skill` with the dialog's answer `confirmed`:
   * without an open skill or without confirmation nothing changes; otherwise the
   * open skill's entry is deleted and no skill is open.
   */
  function AfterDelete(s: EditorState, confirmed: bool): EditorState
  {
    if !HasSelection(s) || !confirmed then s
    else EditorState(Remove(s.ids, s.current.value), s.data - {s.current.value}, None)
  }

  // ---------------------------------------------------------------------------
  // Helper lemmas

  lemma {:induction false} RemoveAbsent(ids: seq<string>, id: string)
    requires id !in ids
    ensures Remove(ids, id) == ids
  {
    if |ids| > 0 {
      RemoveAbsent(ids[1..], id);
      assert [ids[0]] + ids[1..] == ids;
    }
  }

  /** Removing a key from a repeat-free order keeps it repeat-free and drops exactly one element. */
  lemma {:induction false} RemoveDistinct(ids: seq<string>, id: string)
    requires Distinct(ids) && id in ids
    ensures Distinct(Remove(ids, id))
    ensures |Remove(ids, id)| == |ids| - 1
  {
    var rest := ids[1..];
    assert Distinct(rest) by {
      forall i, j | 0 <= i < j < |rest| ensures rest[i] != rest[j] {
        assert rest[i] == ids[i + 1] && rest[j] == ids[j + 1];
      }
    }
    assert forall x :: x in rest ==> x != ids[0] by {
      forall x | x in rest ensures x != ids[0] {
        var j :| 0 <= j < |rest| && rest[j] == x;
        assert ids[j + 1] == x;
      }
    }
    if ids[0] == id {
      RemoveAbsent(rest, id);
    } else {
      assert id in rest;
      RemoveDistinct(rest, id);
      var r := Remove(rest, id);
      forall i, j | 0 <= i < j < |[ids[0]] + r| ensures ([ids[0]] + r)[i] != ([ids[0]] + r)[j] {
        if i == 0 { assert ([ids[0]] + r)[j] == r[j - 1] && r[j - 1] in r; }
      }
    }
  }

  /** Appending an id not yet in a repeat-free order keeps it repeat-free. */
  lemma AppendFresh(ids: seq<string>, id: string)
    requires Distinct(ids) && id !in ids
    ensures Distinct(ids + [id])
  {
    var r := ids + [id];
    forall i, j | 0 <= i < j < |r| ensures r[i] != r[j] {
      assert r[i] == ids[i];
      if j == |ids| { assert r[j] == id; } else { assert r[j] == ids[j]; }
    }
  }

  /** A repeat-free sequence has as many elements as its set. */
  lemma {:induction false} DistinctCard(ids: seq<string>)
    requires Distinct(ids)
    ensures |set x | x in ids| == |ids|
  {
    if |ids| > 0 {
      var init := ids[..|ids| - 1];
      var last := ids[|ids| - 1];
      assert Distinct(init);
      DistinctCard(init);
      assert last !in init by {
        forall i | 0 <= i < |init| ensures init[i] != last {
          assert init[i] == ids[i];
        }
      }
      assert (set x | x in ids) == (set x | x in init) + {last} by {
        assert ids == init + [last];
      }
    }
  }

  /** In a valid state the key order has exactly one entry per key. */
  lemma ValidCard(s: EditorState)
    requires Consistent(s)
    ensures |s.ids| == |s.data.Keys|
  {
    DistinctCard(s.ids);
    assert (set x | x in s.ids) == s.data.Keys;
  }

  lemma {:induction false} SubsetCard(a: set<string>, b: set<string>)
    requires a <= b
    ensures |a| <= |b|
    decreases |a|
  {
    if a != {} {
      var x :| x in a;
      SubsetCard(a - {x}, b - {x});
    }
  }

  /** `str` is one-to-one on natural numbers. */
  lemma {:induction false} DecimalInjective(a: nat, b: nat)
    requires Decimal(a) == Decimal(b)
    ensures a == b
    decreases a
  {
    var da, db := Decimal(a), Decimal(b);
    if a >= 10 && b >= 10 {
      assert da[|da| - 1] == Digit(a % 10) && db[|db| - 1] == Digit(b % 10);
      assert Decimal(a / 10) == da[..|da| - 1] == db[..|db| - 1] == Decimal(b / 10);
      DecimalInjective(a / 10, b / 10);
    } else {
      assert a < 10 && b < 10;
      assert da[0] == Digit(a) && db[0] == Digit(b);
    }
  }

  /** Distinct indices give distinct candidate ids. */
  lemma CandidateInjective(j: nat, k: nat)
    requires Candidate(j) == Candidate(k)
    ensures j == k
  {
    if j != 0 && k != 0 {
      var prefix := NewSkillBase + "_";
      assert Candidate(j) == prefix + Decimal(j) && Candidate(k) == prefix + Decimal(k);
      assert Decimal(j) == Candidate(j)[|prefix|..] == Candidate(k)[|prefix|..] == Decimal(k);
      DecimalInjective(j, k);
    }
  }

  /** n candidates are n distinct ids. */
  lemma {:induction false} TriedCard(n: nat)
    ensures |Tried(n)| == n
  {
    if n > 0 {
      TriedCard(n - 1);
      NextUntried(n - 1);
      assert Tried(n) == Tried(n - 1) + {Candidate(n - 1)};
    }
  }

  /** The n-th candidate is none of those tried before it. */
  lemma NextUntried(n: nat)
    ensures Candidate(n) !in Tried(n)
  {
    if Candidate(n) in Tried(n) {
      var j :| 0 <= j < n && Candidate(j) == Candidate(n);
      CandidateInjective(j, n);
    }
  }

  /** If the first n candidates are all keys, there are at least n keys. */
  lemma TriedBound(keys: set<string>, n: nat)
    requires forall j :: 0 <= j < n ==> Candidate(j) in keys
    ensures n <= |keys|
  {
    TriedCard(n);
    SubsetCard(Tried(n), keys);
  }

  // ---------------------------------------------------------------------------
  // The editor

  class SkillDefinitionsEditor {
    var skillIds: seq<string>
    var skillData: map<string, Skill>
    var currentSkillId: Option<string>

    function State(): EditorState
      reads this
    {
      EditorState(skillIds, skillData, currentSkillId)
    }

    predicate Valid()
      reads this
    {
      Consistent(State())
    }

    /** `__init__`: an empty map, no open skill, then `load_default_data`. */
    constructor ()
      ensures Valid()
      ensures skillIds == [DefaultId] && skillData == map[DefaultId := EmptySkill]
      ensures currentSkillId == None
    {
      skillIds := [];
      skillData := map[];
      currentSkillId := None;
      new;
      LoadDefaultData();
    }

    /** Replaces the whole map by the single entry `"skill_id"` with empty texts; the open skill is not touched. */
    method LoadDefaultData()
      modifies this
      ensures skillIds == [DefaultId] && skillData == map[DefaultId := EmptySkill]
      ensures currentSkillId == old(currentSkillId)
      ensures old(currentSkillId) == None ==> Valid()
    {
      skillData := map[DefaultId := EmptySkill];
      skillIds := [DefaultId];
    }

    /**
     * Opens `skillId` when it is a key and returns the record the form then
     * shows; otherwise changes nothing and returns None.
     */
    method LoadSkillToEditor(skillId: string) returns (shown: Option<Skill>)
      requires Valid()
      modifies this
      ensures Valid()
      ensures State() == Select(old(State()), skillId)
      ensures shown == if skillId in skillData then Some(skillData[skillId]) else None
    {
      shown := None;
      if skillId in skillData {
        currentSkillId := Some(skillId);
        shown := Some(skillData[skillId]);
      }
    }

    /** `apply_changes`, with `newId` the stripped text of the id field. */
    method ApplyChanges(newId: string, display: string, description: string) returns (outcome: ApplyOutcome)
      requires Valid()
      modifies this
      ensures Valid()
      ensures outcome == ApplyCheck(old(State()), newId)
      ensures State() == AfterApply(old(State()), newId, Skill(display, description))
    {
      if currentSkillId.None? || currentSkillId.value == "" {
        return NoSelection;
      }
      var oldId := currentSkillId.value;
      if newId == "" {
        return EmptyId;
      }
      if newId != oldId && newId in skillData {
        return IdTaken;
      }
      var skill := Skill(display, description);
      if newId != oldId {
        RemoveDistinct(skillIds, oldId);
        skillData := skillData - {oldId};
        skillIds := Remove(skillIds, oldId);
      }
      if newId !in skillData {
        skillIds := skillIds + [newId];
      }
      skillData := skillData[newId := skill];
      currentSkillId := Some(newId);
      outcome := Applied;
    }

    /**
     * The id-search loop of `create_new_skill`: tries "new_skill", "new_skill_1",
     * "new_skill_2", ... and stops at the first one that is not a key. It ends
     * because at most |skill_data| candidates can be keys.
     */
    method UnusedSkillId() returns (newId: string)
      ensures newId !in skillData
      ensures newId == Candidate(FirstFree(skillData.Keys))
    {
      var counter := 1;
      newId := NewSkillBase;
      while newId in skillData
        invariant 1 <= counter <= |skillData.Keys| + 1
        invariant newId == Candidate(counter - 1)
        invariant forall j :: 0 <= j < counter - 1 ==> Candidate(j) in skillData
        decreases |skillData.Keys| + 1 - counter
      {
        TriedBound(skillData.Keys, counter);
        newId := NewSkillBase + "_" + Decimal(counter);
        counter := counter + 1;
      }
    }

    /** `create_new_skill`: adds the first unused candidate id with empty texts and opens it. */
    method CreateNewSkill() returns (newId: string)
      requires Valid()
      modifies this
      ensures Valid()
      ensures newId == Candidate(FirstFree(old(skillData).Keys))
      ensures State() == AfterCreate(old(State()))
    {
      newId := UnusedSkillId();
      AppendFresh(skillIds, newId);
      skillData := skillData[newId := EmptySkill];
      skillIds := skillIds + [newId];
      var _ := LoadSkillToEditor(newId);
    }

    /**
     * `delete_current_skill`, with `confirmed` the answer to "Are you sure...?"
     * (asked only when a skill is open); returns whether the skill was deleted.
     */
    method DeleteCurrentSkill(confirmed: bool) returns (deleted: bool)
      requires Valid()
      modifies this
      ensures Valid()
      ensures deleted <==> HasSelection(old(State())) && confirmed
      ensures State() == AfterDelete(old(State()), confirmed)
    {
      if currentSkillId.None? || currentSkillId.value == "" {
        return false;
      }
      if !confirmed {
        return false;
      }
      var id := currentSkillId.value;
      RemoveDistinct(skillIds, id);
      skillData := skillData - {id};
      skillIds := Remove(skillIds, id);
      currentSkillId := None;
      deleted := true;
    }
  }
}
