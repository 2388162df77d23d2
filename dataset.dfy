/** The dataset object's set-up: length limits with their `-1` sentinels, and
    the per-domain filter of TVSum and YouTube Highlights. */
module Dataset {
  import opened Results

  /** One annotation record, reduced to the fields set-up reads. */
  datatype Annotation = Annotation(qid: int, vid: string, domain: string)

  /** `max_v_l = -1` means "no limit", spelled as 100000000. */
  function VideoLimit(maxVL: int): (r: int)
    ensures r != -1
    ensures maxVL == -1 ==> r == 100000000
    ensures maxVL != -1 ==> r == maxVL
  {
    if maxVL == -1 then 100000000 else maxVL
  }

  /** `max_q_l = -1` means a limit of 100 query tokens. */
  function QueryLimit(maxQL: int): (r: int)
    ensures r != -1
    ensures maxQL == -1 ==> r == 100
    ensures maxQL != -1 ==> r == maxQL
  {
    if maxQL == -1 then 100 else maxQL
  }

  /** The records of `domain`, in their original order. */
  function Filtered(data: seq<Annotation>, domain: string): seq<Annotation> {
    if data == [] then []
    else
      var last := data[|data| - 1];
      Filtered(data[..|data| - 1], domain) + (if last.domain == domain then [last] else [])
  }

  /** A record is kept exactly when it is in the data and belongs to the domain. */
  lemma {:induction false} FilteredMembers(data: seq<Annotation>, domain: string)
    ensures forall a :: a in Filtered(data, domain) <==> a in data && a.domain == domain
  {
    if data != [] {
      var init := data[..|data| - 1];
      FilteredMembers(init, domain);
      assert data == init + [data[|data| - 1]];
    }
  }

  /** Filtering never adds records, and filtering twice is filtering once. */
  lemma {:induction false} FilteredIdempotent(data: seq<Annotation>, domain: string)
    ensures |Filtered(data, domain)| <= |data|
    ensures Filtered(Filtered(data, domain), domain) == Filtered(data, domain)
  {
    if data != [] {
      var init := data[..|data| - 1];
      var last := data[|data| - 1];
      FilteredIdempotent(init, domain);
      if last.domain == domain {
        FilteredSnoc(Filtered(init, domain), last, domain);
      } else {
        assert Filtered(data, domain) == Filtered(init, domain);
      }
    }
  }

  lemma FilteredSnoc(s: seq<Annotation>, a: Annotation, domain: string)
    ensures Filtered(s + [a], domain) == Filtered(s, domain) + (if a.domain == domain then [a] else [])
  {
    assert (s + [a])[..|s + [a]| - 1] == s;
  }

  /** The loop of `__init__` that appends the records of `domain` to a new list. */
  method FilterByDomain(data: seq<Annotation>, domain: string) returns (kept: seq<Annotation>)
    ensures kept == Filtered(data, domain)
    ensures forall a :: a in kept <==> a in data && a.domain == domain
  {
    kept := [];
    for i := 0 to |data|
      invariant kept == Filtered(data[..i], domain)
    {
      assert data[..i + 1] == data[..i] + [data[i]];
      FilteredSnoc(data[..i], data[i], domain);
      if data[i].domain == domain {
        kept := kept + [data[i]];
      }
    }
    assert data[..|data|] == data;
    FilteredMembers(data, domain);
  }

  predicate FiltersByDomain(dsetName: string) {
    dsetName == "tvsum" || dsetName == "youtube_highlight"
  }

  /** `Q_FEAT_TYPES`: the kinds of query feature the dataset accepts. */
  const QFeatTypes: seq<string> := ["pooler_output", "last_hidden_state"]

  class StartEndDataset {
    const dsetName: string
    const domain: string
    const qFeatType: string
    const maxQL: int
    const maxVL: int
    var data: seq<Annotation>

    /** The set-up of `__init__` once its query feature check has passed,
        with the loaded annotation file given as `loaded`: the sentinels are
        replaced, and TVSum and YouTube Highlights keep only the records of
        the chosen domain. */
    constructor (dsetName: string, domain: string, loaded: seq<Annotation>, qFeatType: string,
                 maxQL: int, maxVL: int)
      requires qFeatType in QFeatTypes
      ensures this.dsetName == dsetName && this.domain == domain && this.qFeatType == qFeatType
      ensures this.maxQL == QueryLimit(maxQL) && this.maxVL == VideoLimit(maxVL)
      ensures data == if FiltersByDomain(dsetName) then Filtered(loaded, domain) else loaded
      ensures Length() <= |loaded|
      ensures FiltersByDomain(dsetName) ==> forall i :: 0 <= i < Length() ==> data[i].domain == domain
    {
      this.dsetName := dsetName;
      this.domain := domain;
      this.qFeatType := qFeatType;
      this.maxQL := QueryLimit(maxQL);
      this.maxVL := VideoLimit(maxVL);
      var kept := loaded;
      if FiltersByDomain(dsetName) {
        kept := FilterByDomain(loaded, domain);
        FilteredIdempotent(loaded, domain);
        assert forall i :: 0 <= i < |kept| ==> kept[i] in kept;
      }
      data := kept;
    }

    /** `__len__`: the number of records set-up kept. */
    function Length(): (n: nat)
      reads this
      ensures n == |data|
    {
      |data|
    }
  }

  /** `__init__` from its start: `assert q_feat_type in self.Q_FEAT_TYPES`
      raises AssertionError before anything is loaded; otherwise the set-up
      of the constructor. */
  method NewStartEndDataset(dsetName: string, domain: string, loaded: seq<Annotation>,
                            qFeatType: string, maxQL: int, maxVL: int)
    returns (r: Result<StartEndDataset>)
    ensures r.Err? <==> qFeatType !in QFeatTypes
    ensures r.Err? ==> r.error == AssertionError
    ensures r.Ok? ==> fresh(r.value)
    ensures r.Ok? ==> r.value.dsetName == dsetName && r.value.domain == domain &&
                      r.value.qFeatType == qFeatType
    ensures r.Ok? ==> r.value.maxQL == QueryLimit(maxQL) && r.value.maxVL == VideoLimit(maxVL)
    ensures r.Ok? ==> r.value.data == if FiltersByDomain(dsetName) then Filtered(loaded, domain) else loaded
  {
    if qFeatType !in QFeatTypes {
      return Err(AssertionError);
    }
    var d := new StartEndDataset(dsetName, domain, loaded, qFeatType, maxQL, maxVL);
    r := Ok(d);
  }
}
