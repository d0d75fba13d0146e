/**
 `select_algorithm`: from an algorithm identifier to the filter it builds.
 The six filters are tags carrying the caller's parameters; only LMS and
 NLMS have update rules in this model.
 */
module Dispatch {
  import opened Wrappers
  import opened UpdateRules

  /** The algorithms run by the sample-by-sample `FilterModel`. */
  datatype StreamingAlgorithm = Lms | Nlms | Rls

  /** The algorithms run by the block-wise `BlockFilterModel`. */
  datatype BlockAlgorithm = Apa | Fdlms | Fdnlms

  /** A constructed filter: its algorithm and the parameters it was built with. */
  datatype FilterKind =
    | Streaming(streaming: StreamingAlgorithm, mu: real, order: int)
    | Block(block: BlockAlgorithm, mu: real, order: int, blockSize: int)

  /** The `ValueError` raised for an identifier outside both tables. */
  datatype ConfigError = UnknownAlgorithm(name: string)

  function StreamingName(a: StreamingAlgorithm): string {
    match a
    case Lms => "LMS"
    case Nlms => "NLMS"
    case Rls => "RLS"
  }

  function BlockName(a: BlockAlgorithm): string {
    match a
    case Apa => "APA"
    case Fdlms => "FDLMS"
    case Fdnlms => "FDNLMS"
  }

  /** The identifier under which a filter kind is registered. */
  function NameOf(k: FilterKind): string {
    match k
    case Streaming(a, _, _) => StreamingName(a)
    case Block(a, _, _, _) => BlockName(a)
  }

  /** The `algos` dictionary: identifier to streaming filter. */
  function StreamingTable(mu: real, order: int): (t: map<string, FilterKind>)
    ensures t.Keys == {"LMS", "NLMS", "RLS"}
  {
    map["LMS" := Streaming(Lms, mu, order),
        "NLMS" := Streaming(Nlms, mu, order),
        "RLS" := Streaming(Rls, mu, order)]
  }

  /** The `block_algos` dictionary: identifier to block filter. */
  function BlockTable(mu: real, order: int, blockSize: int): (t: map<string, FilterKind>)
    ensures t.Keys == {"APA", "FDLMS", "FDNLMS"}
  {
    map["APA" := Block(Apa, mu, order, blockSize),
        "FDLMS" := Block(Fdlms, mu, order, blockSize),
        "FDNLMS" := Block(Fdnlms, mu, order, blockSize)]
  }

  /** Every identifier the dispatch accepts. */
  const KnownNames: set<string> := {"LMS", "NLMS", "RLS", "APA", "FDLMS", "FDNLMS"}

  /**
   `select_algorithm`: reject an identifier found in neither table, then
   look it up in the streaming table and, separately, in the block table;
   a hit in the second lookup would overwrite the first.
   */
  function SelectAlgorithm(order: int, mu: real, algorithm: string, blockSize: int): (r: Result<FilterKind, ConfigError>)
    ensures r.Failure? <==> algorithm !in KnownNames
    ensures r.Failure? ==> r.error == UnknownAlgorithm(algorithm)
    ensures r.Success? ==> NameOf(r.value) == algorithm && r.value.mu == mu && r.value.order == order
    ensures r.Success? ==> (r.value.Streaming? <==> algorithm in {"LMS", "NLMS", "RLS"})
    ensures r.Success? && r.value.Block? ==> r.value.blockSize == blockSize
  {
    var algos := StreamingTable(mu, order);
    var blockAlgos := BlockTable(mu, order, blockSize);
    if algorithm !in algos && algorithm !in blockAlgos then
      Failure(UnknownAlgorithm(algorithm))
    else
      var fromStreaming := if algorithm in algos then Some(algos[algorithm]) else None;
      var chosen := if algorithm in blockAlgos then Some(blockAlgos[algorithm]) else fromStreaming;
      Success(chosen.value)
  }

  /** The two tables share no identifier, so at most one lookup assigns the filter. */
  lemma TablesDisjoint(mu: real, order: int, blockSize: int)
    ensures StreamingTable(mu, order).Keys !! BlockTable(mu, order, blockSize).Keys
    ensures StreamingTable(mu, order).Keys + BlockTable(mu, order, blockSize).Keys == KnownNames
  {
  }

  /**
   Selecting a filter kind by its own name, with its own parameters, builds
   that very filter: the dispatch is the inverse of `NameOf`.
   */
  lemma SelectNameOf(k: FilterKind, blockSize: int)
    requires k.Block? ==> k.blockSize == blockSize
    ensures SelectAlgorithm(k.order, k.mu, NameOf(k), blockSize) == Success(k)
  {
    var r := SelectAlgorithm(k.order, k.mu, NameOf(k), blockSize);
    assert NameOf(k) in KnownNames by {
      match k
      case Streaming(a, _, _) =>
      case Block(a, _, _, _) =>
    }
    assert r.Success?;
    match k {
      case Streaming(a, _, _) =>
        match a {
          case Lms =>
          case Nlms =>
          case Rls =>
        }
      case Block(a, _, _, _) =>
        match a {
          case Apa =>
          case Fdlms =>
          case Fdnlms =>
        }
    }
  }

  /** Identifiers are matched exactly: lower case is not accepted. */
  lemma SelectIsCaseSensitive(order: int, mu: real, blockSize: int)
    ensures SelectAlgorithm(order, mu, "lms", blockSize) == Failure(UnknownAlgorithm("lms"))
    ensures SelectAlgorithm(order, mu, "LMS", blockSize) == Success(Streaming(Lms, mu, order))
  {
    assert "lms" !in KnownNames by {
      assert "lms"[0] != "LMS"[0];
      assert "lms"[0] != "NLMS"[0] && "lms"[0] != "RLS"[0];
      assert "lms"[0] != "APA"[0] && "lms"[0] != "FDLMS"[0] && "lms"[0] != "FDNLMS"[0];
    }
  }

  /**
   The update rule a streaming filter runs with in this model: LMS and NLMS
   with the selected step size, nothing for the filters not modelled here.
   */
  function RuleOf(k: FilterKind): (r: Option<Rule>)
    ensures r.Some? <==> k.Streaming? && k.streaming != Rls
    ensures k.Streaming? && k.streaming == Lms ==> r.Some? && forall e, x :: UpdateOf(r.value)(e, x) == LmsUpdate(k.mu, e, x)
    ensures k.Streaming? && k.streaming == Nlms ==> r.Some? && forall e, x :: UpdateOf(r.value)(e, x) == NlmsUpdate(k.mu, e, x)
  {
    match k
    case Streaming(Lms, mu, _) => Some(LmsRule(mu))
    case Streaming(Nlms, mu, _) => Some(NlmsRule(mu))
    case _ => None
  }

  /**
   An accepted `"LMS"` or `"NLMS"` filter computes the LMS or NLMS update
   with the caller's step size.
   */
  lemma SelectedRule(order: int, mu: real, blockSize: int, e: real, x: seq<real>)
    ensures RuleOf(SelectAlgorithm(order, mu, "LMS", blockSize).value).Some?
    ensures UpdateOf(RuleOf(SelectAlgorithm(order, mu, "LMS", blockSize).value).value)(e, x) == LmsUpdate(mu, e, x)
    ensures RuleOf(SelectAlgorithm(order, mu, "NLMS", blockSize).value).Some?
    ensures UpdateOf(RuleOf(SelectAlgorithm(order, mu, "NLMS", blockSize).value).value)(e, x) == NlmsUpdate(mu, e, x)
  {
  }
}
