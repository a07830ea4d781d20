/**
 * The learning resource registry: curated resources grouped by competency,
 * and the two lookups over it. The registry's contents are a parameter.
 */
module LearningResources {

  /** One curated resource (the descriptive fields are not modelled). */
  datatype LearningResource = LearningResource(id: string, title: string, url: string)

  /** The resources recorded for one competency. */
  datatype SkillResources = SkillResources(skillId: string, resources: seq<LearningResource>)

  /** No entry before index `i` is for the competency. */
  predicate FirstFor(all: seq<SkillResources>, skillId: string, i: nat) {
    forall j :: 0 <= j < i && j < |all| ==> all[j].skillId != skillId
  }

  /**
   * `getResourcesForSkill`: the resources of the first entry for the
   * competency, or none when there is no entry. An entry's list is an
   * array, which is truthy even when empty, so the fallback only applies
   * to a missing entry.
   */
  function GetResourcesForSkill(all: seq<SkillResources>, skillId: string): (r: seq<LearningResource>)
    ensures (forall i :: 0 <= i < |all| ==> all[i].skillId != skillId) ==> r == []
    ensures forall i :: 0 <= i < |all| && all[i].skillId == skillId && FirstFor(all, skillId, i) ==>
      r == all[i].resources
  {
    if all == [] then []
    else if all[0].skillId == skillId then all[0].resources
    else
      assert forall i :: 0 < i < |all| ==> all[i] == all[1..][i - 1];
      GetResourcesForSkill(all[1..], skillId)
  }

  /**
   * `getAllResources`: the registry itself, so every competency's first
   * entry in it holds exactly what `getResourcesForSkill` returns for it.
   */
  function GetAllResources(all: seq<SkillResources>): (r: seq<SkillResources>)
    ensures |r| == |all|
    ensures forall i :: 0 <= i < |r| && FirstFor(r, r[i].skillId, i) ==>
      GetResourcesForSkill(all, r[i].skillId) == r[i].resources
  {
    all
  }

  /**
   * The two lookups agree: every resource found for a competency is one the
   * full registry lists under that competency.
   */
  lemma {:induction false} ResourcesComeFromRegistry(all: seq<SkillResources>, skillId: string, x: LearningResource)
    requires x in GetResourcesForSkill(all, skillId)
    ensures exists e :: e in GetAllResources(all) && e.skillId == skillId && x in e.resources
  {
    if all[0].skillId == skillId {
      assert all[0] in GetAllResources(all);
    } else {
      ResourcesComeFromRegistry(all[1..], skillId, x);
      var e :| e in all[1..] && e.skillId == skillId && x in e.resources;
      assert e in all;
    }
  }

  /** Adding an entry for an unlisted competency leaves every existing lookup unchanged. */
  lemma {:induction false} AppendUnrelated(all: seq<SkillResources>, entry: SkillResources, skillId: string)
    requires entry.skillId != skillId
    ensures GetResourcesForSkill(all + [entry], skillId) == GetResourcesForSkill(all, skillId)
  {
    if all != [] {
      assert (all + [entry])[1..] == all[1..] + [entry];
      AppendUnrelated(all[1..], entry, skillId);
    } else {
      assert [entry][1..] == [];
    }
  }
}
