/** The label set a sample carries: a map from label name to label value, built
    from the pairs of a label block in the order they were read. */
module Labels {
  import opened Combinators

  type LabelPairs = seq<(string, string)>

  /** The label set of a block whose pairs were read in this order: each pair
      is inserted in turn, so a later pair with the same name replaces an
      earlier one. */
  function LabelMap(pairs: LabelPairs): (m: map<string, string>)
    ensures m.Keys == set i | 0 <= i < |pairs| :: pairs[i].0
  {
    if pairs == [] then map[]
    else
      var last := pairs[|pairs| - 1];
      var m := LabelMap(pairs[..|pairs| - 1]);
      assert forall i :: 0 <= i < |pairs| - 1 ==> pairs[..|pairs| - 1][i] == pairs[i];
      m[last.0 := last.1]
  }

  /** `LabelList::get_string`: the value stored under `name`, if any. */
  function GetString(labels: map<string, string>, name: string): (r: Option<string>)
    ensures r.Some? <==> name in labels
    ensures r.Some? ==> r.value == labels[name]
  {
    if name in labels then Some(labels[name]) else None
  }

  /** Last write wins: the value stored under a name is the value of the last
      pair with that name. */
  lemma {:induction false} LabelMapLastWins(pairs: LabelPairs, i: nat)
    requires i < |pairs|
    requires forall j :: i < j < |pairs| ==> pairs[j].0 != pairs[i].0
    ensures pairs[i].0 in LabelMap(pairs) && LabelMap(pairs)[pairs[i].0] == pairs[i].1
  {
    if i < |pairs| - 1 {
      var init := pairs[..|pairs| - 1];
      assert forall j :: i < j < |init| ==> init[j] == pairs[j];
      LabelMapLastWins(init, i);
    }
  }
}
