/** The column-mapping confirmation (`ColumnMatcher`): the suggested matches become the initial
    mapping from order fields to CSV headers, and Confirm passes the mapping on only when the
    order-number field has a header. Confidence scores are left out. */
module ColumnMatcher {
  import opened Seqs

  /** The three order fields a column can be matched to. */
  datatype Field = OrderNumber | ShippingStatus | TrackingCode

  /** A suggested match of one CSV header to one field. */
  datatype ColumnMatch = ColumnMatch(header: string, field: Field, samples: seq<string>)

  /** `suggestedMatches.reduce((acc, m) => ({...acc, [m.type]: m.header}), {})`: each match in
      turn writes its header under its field, so for a field matched several times the last
      match wins, and only matched fields get a key. */
  function InitialMapping(matches: seq<ColumnMatch>): (mapping: map<Field, string>)
    ensures forall f :: f in mapping <==> exists i :: 0 <= i < |matches| && matches[i].field == f
    ensures forall i :: 0 <= i < |matches| && (forall j :: i < j < |matches| ==> matches[j].field != matches[i].field) ==>
      mapping[matches[i].field] == matches[i].header
  {
    if matches == [] then map[]
    else
      var last := matches[|matches| - 1];
      var before := matches[..|matches| - 1];
      assert matches == before + [last];
      MappingStep(before, last, InitialMapping(before));
      InitialMapping(before)[last.field := last.header]
  }

  /** Writing one more match over the mapping of the earlier ones keeps both properties of the
      mapping. */
  lemma MappingStep(before: seq<ColumnMatch>, last: ColumnMatch, prev: map<Field, string>)
    requires forall f :: f in prev <==> exists i :: 0 <= i < |before| && before[i].field == f
    requires forall i :: 0 <= i < |before| && (forall j :: i < j < |before| ==> before[j].field != before[i].field) ==>
      prev[before[i].field] == before[i].header
    ensures var matches := before + [last];
      var mapping := prev[last.field := last.header];
      && (forall f :: f in mapping <==> exists i :: 0 <= i < |matches| && matches[i].field == f)
      && (forall i :: 0 <= i < |matches| && (forall j :: i < j < |matches| ==> matches[j].field != matches[i].field) ==>
            mapping[matches[i].field] == matches[i].header)
  {
    var matches := before + [last];
    var n := |before|;
    var mapping := prev[last.field := last.header];
    assert matches[n] == last;
    forall f ensures f in mapping <==> exists i :: 0 <= i < |matches| && matches[i].field == f {
      if f in prev {
        var i :| 0 <= i < n && before[i].field == f;
        assert matches[i].field == f;
      }
      if f != last.field && exists i :: 0 <= i < |matches| && matches[i].field == f {
        var i :| 0 <= i < |matches| && matches[i].field == f;
        assert i < n && before[i].field == f;
      }
    }
    forall i | 0 <= i < |matches| && (forall j :: i < j < |matches| ==> matches[j].field != matches[i].field)
      ensures mapping[matches[i].field] == matches[i].header
    {
      if i < n {
        assert before[i] == matches[i];
        forall j | i < j < n ensures before[j].field != before[i].field {
          assert before[j] == matches[j];
        }
      }
    }
  }

  /** A match that a later match for the same field follows has no say in the mapping. */
  lemma LaterMatchWins(matches: seq<ColumnMatch>, i: nat, j: nat)
    requires i < j < |matches| && matches[i].field == matches[j].field
    requires forall k :: j < k < |matches| ==> matches[k].field != matches[j].field
    ensures InitialMapping(matches)[matches[i].field] == matches[j].header
  {
  }

  /** The guard of `handleConfirm`: `orderNumber` is mapped to a non-empty header. */
  predicate CanConfirm(mapping: map<Field, string>) {
    OrderNumber in mapping && mapping[OrderNumber] != ""
  }

  /** Suggestions without an order-number match can never be confirmed as they are. */
  lemma NoOrderNumberMatchBlocksConfirm(matches: seq<ColumnMatch>)
    requires forall i :: 0 <= i < |matches| ==> matches[i].field != OrderNumber
    ensures !CanConfirm(InitialMapping(matches))
  {
  }

  /** `match.samples.slice(0, 2)`: at most the first two samples are shown. */
  function ShownSamples(m: ColumnMatch): (shown: seq<string>)
    ensures |shown| == if |m.samples| < 2 then |m.samples| else 2
    ensures shown == m.samples[..|shown|]
  {
    Slice(m.samples, 0, 2)
  }

  /** The matcher's state. The mapping starts empty and is replaced whenever the suggestions
      change. */
  class Matcher {
    var selectedMapping: map<Field, string>
    /** The mappings handed to `onConfirm`, in order. */
    var confirmed: seq<map<Field, string>>

    constructor()
      ensures selectedMapping == map[] && confirmed == []
    {
      selectedMapping := map[];
      confirmed := [];
    }

    /** The effect on `suggestedMatches`. */
    method SuggestionsChanged(matches: seq<ColumnMatch>)
      modifies this
      ensures selectedMapping == InitialMapping(matches) && confirmed == old(confirmed)
    {
      selectedMapping := InitialMapping(matches);
    }

    /** `handleConfirm`: the mapping goes out unchanged when the guard holds; otherwise nothing
        happens. */
    method HandleConfirm()
      modifies this
      ensures selectedMapping == old(selectedMapping)
      ensures CanConfirm(selectedMapping) ==> confirmed == old(confirmed) + [selectedMapping]
      ensures !CanConfirm(selectedMapping) ==> confirmed == old(confirmed)
    {
      if OrderNumber !in selectedMapping || selectedMapping[OrderNumber] == "" {
        return;
      }
      confirmed := confirmed + [selectedMapping];
    }
  }
}
