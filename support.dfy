/**
  support.py: `get_attribute_dict` folds the rows of a search cursor into a
  dictionary from each row's key value to its attribute value. A row is
  represented by the pair of the two values the loop reads from it.
*/
module Support {

  /** Row j is the last row carrying its key. */
  ghost predicate LastWithKey<K, V>(rows: seq<(K, V)>, j: int) {
    0 <= j < |rows| && forall j' :: j < j' < |rows| ==> rows[j'].0 != rows[j].0
  }

  /**
    `output_dict[row.getValue(key)] = row.getValue(attribute)` for every row,
    starting from an empty dictionary: the keys are exactly the key values of
    the rows, and each key holds, unchanged, the attribute of the last row
    that carries it.
  */
  method GetAttributeDict<K(==), V>(rows: seq<(K, V)>) returns (outputDict: map<K, V>)
    ensures forall k :: k in outputDict <==> exists j :: 0 <= j < |rows| && rows[j].0 == k
    ensures forall j :: LastWithKey(rows, j) ==> rows[j].0 in outputDict && outputDict[rows[j].0] == rows[j].1
  {
    outputDict := map[];
    for i := 0 to |rows|
      invariant forall k :: k in outputDict <==> exists j :: 0 <= j < i && rows[j].0 == k
      invariant forall j :: LastWithKey(rows[..i], j) ==> outputDict[rows[j].0] == rows[j].1
    {
      outputDict := outputDict[rows[i].0 := rows[i].1];
      forall j | LastWithKey(rows[..i + 1], j) ensures outputDict[rows[j].0] == rows[j].1 {
        if j < i {
          assert LastWithKey(rows[..i], j);
        }
      }
    }
    assert rows[..|rows|] == rows;
  }
}
