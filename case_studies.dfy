/**
 * The case study registry: the studies in display order and the lookup by
 * id. Only the fields the lookup needs are modelled; the prose is not.
 */
module CaseStudies {
  import opened Wrappers

  /** A case study: its id and title (the prose fields are not modelled). */
  datatype CaseStudy = CaseStudy(id: string, title: string)

  /** `allCaseStudies`, in display order. */
  const ALL_CASE_STUDIES: seq<CaseStudy> := [
    CaseStudy("mysquad", "MySquad — Squad Analytics & Counseling Tool"),
    CaseStudy("atlas", "Atlas — Multinational Logistics Dashboards"),
    CaseStudy("tesseract", "Tesseract — Internal Starter App Framework"),
    CaseStudy("logtak", "LOGTAK — TAK-Based Supply Integration")]

  /** `studies.find((s) => s.id === id)`: a study with that id, `undefined` as `None`. */
  function FindById(studies: seq<CaseStudy>, id: string): (r: Option<CaseStudy>)
    ensures r.None? <==> forall i :: 0 <= i < |studies| ==> studies[i].id != id
    ensures r.Some? ==> r.value.id == id && r.value in studies
  {
    if studies == [] then None
    else if studies[0].id == id then Some(studies[0])
    else
      assert forall i :: 0 < i < |studies| ==> studies[i] == studies[1..][i - 1];
      FindById(studies[1..], id)
  }

  /** The study found is the first one in list order with that id. */
  lemma {:induction false} FindByIdFirst(studies: seq<CaseStudy>, id: string, i: nat)
    requires i < |studies| && studies[i].id == id
    requires forall j :: 0 <= j < i ==> studies[j].id != id
    ensures FindById(studies, id) == Some(studies[i])
  {
    if i > 0 {
      assert studies[0].id != id;
      FindByIdFirst(studies[1..], id, i - 1);
    }
  }

  /** `getCaseStudyById`: the registry's study with that id, or nothing when no study has it. */
  function GetCaseStudyById(id: string): (r: Option<CaseStudy>)
    ensures r.None? <==> forall i :: 0 <= i < |ALL_CASE_STUDIES| ==> ALL_CASE_STUDIES[i].id != id
    ensures r.Some? ==> r.value.id == id && r.value in ALL_CASE_STUDIES
  {
    FindById(ALL_CASE_STUDIES, id)
  }

  /**
   * The registry lists mysquad, atlas, tesseract and logtak in that order;
   * their ids are distinct, so each id resolves to its own study and any
   * other id resolves to nothing.
   */
  lemma {:induction false} RegistryLookup(id: string)
    ensures |ALL_CASE_STUDIES| == 4
    ensures ALL_CASE_STUDIES[0].id == "mysquad" && ALL_CASE_STUDIES[1].id == "atlas"
    ensures ALL_CASE_STUDIES[2].id == "tesseract" && ALL_CASE_STUDIES[3].id == "logtak"
    ensures forall i :: 0 <= i < 4 ==> GetCaseStudyById(ALL_CASE_STUDIES[i].id) == Some(ALL_CASE_STUDIES[i])
    ensures id !in {"mysquad", "atlas", "tesseract", "logtak"} ==> GetCaseStudyById(id) == None
  {
    forall i | 0 <= i < 4 ensures GetCaseStudyById(ALL_CASE_STUDIES[i].id) == Some(ALL_CASE_STUDIES[i]) {
      RegistryOwn(i);
    }
    if id !in {"mysquad", "atlas", "tesseract", "logtak"} {
      RegistryUnknown(id);
    }
  }

  /** The registry's first letters already tell its ids apart. */
  lemma {:induction false} RegistryIdsDistinct()
    ensures forall a, b :: 0 <= a < b < |ALL_CASE_STUDIES| ==> ALL_CASE_STUDIES[a].id != ALL_CASE_STUDIES[b].id
  {
    var s := ALL_CASE_STUDIES;
    assert s[0].id[0] == 'm' && s[1].id[0] == 'a' && s[2].id[0] == 't' && s[3].id[0] == 'l';
  }

  /** Each listed id resolves to its own study. */
  lemma {:induction false} RegistryOwn(i: nat)
    requires i < |ALL_CASE_STUDIES|
    ensures GetCaseStudyById(ALL_CASE_STUDIES[i].id) == Some(ALL_CASE_STUDIES[i])
  {
    RegistryIdsDistinct();
    FindByIdFirst(ALL_CASE_STUDIES, ALL_CASE_STUDIES[i].id, i);
  }

  /** An id that is not listed resolves to nothing. */
  lemma {:induction false} RegistryUnknown(id: string)
    requires id !in {"mysquad", "atlas", "tesseract", "logtak"}
    ensures GetCaseStudyById(id) == None
  {
    var s := ALL_CASE_STUDIES;
    assert s[0].id == "mysquad" && s[1].id == "atlas" && s[2].id == "tesseract" && s[3].id == "logtak";
  }
}
