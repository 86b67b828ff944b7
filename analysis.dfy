/** `format_result` of the analysis scripts: estimated areas and volumes as a JSON object. */
module Analysis {
  import opened Wrappers
  import opened Json

  /** The object `format_result` serialises: the first and the second members of each pair, in input order. */
  function FormatResult(results: seq<(real, real)>): (j: Json<real>)
    ensures j.JObj? && j.fields.Keys == {"areas", "volumes"}
    ensures |ArrayValue(Get(j, "areas"))| == |results| == |ArrayValue(Get(j, "volumes"))|
  {
    JObj(map["areas" := JArr(seq(|results|, i requires 0 <= i < |results| => JNum(results[i].0))),
             "volumes" := JArr(seq(|results|, i requires 0 <= i < |results| => JNum(results[i].1)))])
  }

  /** Pairing the two lists element by element gives the results back. */
  lemma FormatResultReadsBack(results: seq<(real, real)>)
    ensures var j := FormatResult(results);
      forall i :: 0 <= i < |results| ==>
        Double(ArrayValue(Get(j, "areas"))[i]) == Some(results[i].0) &&
        Double(ArrayValue(Get(j, "volumes"))[i]) == Some(results[i].1)
  {
  }

  /** No results give two empty lists. */
  lemma FormatNoResults()
    ensures FormatResult([]) == JObj(map["areas" := JArr([]), "volumes" := JArr([])])
  {
  }
}
