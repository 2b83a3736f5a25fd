/**
 * The per-edge part of sample assembly: for each column of a conversation's
 * edge index, the commonsense attribute of the edge's source utterance and
 * relation type, an "oWant" flag and a three-way relation code.
 */
module EdgeRelations {
  import opened Wrappers
  import opened Failures

  /** One column of the 2 x E edge index: row 0 holds the source utterance, row 1 the target. */
  datatype Edge = Edge(src: nat, dst: nat)

  /** A commonsense attribute vector. */
  type Attr = seq<real>

  /** One conversation's attributes: per source utterance, relation type to vector. */
  type AttrTable = seq<map<string, Attr>>

  /** The three per-edge output lists, aligned with the edge columns. */
  datatype EdgeColumns = EdgeColumns(attr: seq<Attr>, binary: seq<int>, relation: seq<int>)

  /** What one edge contributes to each of the three lists. */
  datatype EdgeEntry = EdgeEntry(attr: Attr, binary: int, relation: int)

  /** 1 for an "oWant" edge and 0 otherwise, whatever the edge's direction. */
  function OWantFlag(ty: string): (b: int)
    ensures b == 0 || b == 1
    ensures b == 1 <==> ty == "oWant"
  {
    if ty == "oWant" then 1 else 0
  }

  /**
   * 2 for an edge that points backward or to itself; for a forward edge,
   * 0 when its type is "xWant" and 1 otherwise.
   */
  function RelationCode(e: Edge, ty: string): (code: int)
    ensures 0 <= code <= 2
    ensures code == 2 <==> e.dst <= e.src
    ensures code == 0 <==> e.src < e.dst && ty == "xWant"
    ensures code == 1 <==> e.src < e.dst && ty != "xWant"
  {
    if e.dst <= e.src then 2 else if ty == "xWant" then 0 else 1
  }

  /**
   * The entry for edge column `i`: the type subscript, then the attribute
   * lookup by source utterance, then by type, each of which can fail.
   */
  function EdgeColumn(edges: seq<Edge>, types: seq<string>, table: AttrTable, i: nat): (r: Result<EdgeEntry, Failure>)
    requires i < |edges|
    ensures r.Ok? <==> i < |types| && edges[i].src < |table| && types[i] in table[edges[i].src]
    ensures r.Err? ==> r.error == (if i < |types| && edges[i].src < |table| then MissingKey else IndexOutOfRange)
    ensures r.Ok? ==> r.value == EdgeEntry(table[edges[i].src][types[i]], OWantFlag(types[i]), RelationCode(edges[i], types[i]))
  {
    if i >= |types| then Err(IndexOutOfRange)
    else if edges[i].src >= |table| then Err(IndexOutOfRange)
    else if types[i] !in table[edges[i].src] then Err(MissingKey)
    else Ok(EdgeEntry(table[edges[i].src][types[i]], OWantFlag(types[i]), RelationCode(edges[i], types[i])))
  }

  /**
   * The three lists after the first `n` iterations of the edge loop: they
   * succeed when every one of the first `n` columns does, and then hold one
   * entry per column in column order; otherwise they fail as the first
   * failing column does.
   */
  function EdgeFeatures(edges: seq<Edge>, types: seq<string>, table: AttrTable, n: nat): (r: Result<EdgeColumns, Failure>)
    requires n <= |edges|
    ensures r.Ok? <==> forall i :: 0 <= i < n ==> EdgeColumn(edges, types, table, i).Ok?
    ensures r.Ok? ==> |r.value.attr| == |r.value.binary| == |r.value.relation| == n
    ensures r.Ok? ==> forall i :: 0 <= i < n ==>
      EdgeColumn(edges, types, table, i) == Ok(EdgeEntry(r.value.attr[i], r.value.binary[i], r.value.relation[i]))
    ensures r.Err? ==>
      exists i :: 0 <= i < n && EdgeColumn(edges, types, table, i) == Err(r.error) &&
                  forall j :: 0 <= j < i ==> EdgeColumn(edges, types, table, j).Ok?
    decreases n
  {
    if n == 0 then Ok(EdgeColumns([], [], []))
    else
      var prefix := EdgeFeatures(edges, types, table, n - 1);
      if prefix.Err? then Err(prefix.error)
      else
        var e := EdgeColumn(edges, types, table, n - 1);
        if e.Err? then Err(e.error)
        else
          var c := prefix.value;
          Ok(EdgeColumns(c.attr + [e.value.attr], c.binary + [e.value.binary], c.relation + [e.value.relation]))
  }

  /** Once a column fails, the loop fails there whatever follows. */
  lemma FailureIsFinal(edges: seq<Edge>, types: seq<string>, table: AttrTable, i: nat, n: nat)
    requires i < n <= |edges|
    requires EdgeFeatures(edges, types, table, i).Ok?
    requires EdgeColumn(edges, types, table, i).Err?
    ensures EdgeFeatures(edges, types, table, n) == Err(EdgeColumn(edges, types, table, i).error)
  {
    var r := EdgeFeatures(edges, types, table, n);
    assert r.Err?;
    var j :| 0 <= j < n && EdgeColumn(edges, types, table, j) == Err(r.error) &&
             forall k :: 0 <= k < j ==> EdgeColumn(edges, types, table, k).Ok?;
    assert forall k :: 0 <= k < i ==> EdgeColumn(edges, types, table, k).Ok?;
    assert j == i;
  }

  /** Conversely, lists that hold every column's entry in order are the loop's result. */
  lemma ColumnsDetermineFeatures(edges: seq<Edge>, types: seq<string>, table: AttrTable, n: nat, c: EdgeColumns)
    requires n <= |edges|
    requires |c.attr| == |c.binary| == |c.relation| == n
    requires forall k :: 0 <= k < n ==> EdgeColumn(edges, types, table, k) == Ok(EdgeEntry(c.attr[k], c.binary[k], c.relation[k]))
    ensures EdgeFeatures(edges, types, table, n) == Ok(c)
  {
    var r := EdgeFeatures(edges, types, table, n);
    assert r.Ok?;
    forall k | 0 <= k < n
      ensures r.value.attr[k] == c.attr[k] && r.value.binary[k] == c.binary[k] && r.value.relation[k] == c.relation[k]
    {
      assert EdgeColumn(edges, types, table, k) == Ok(EdgeEntry(r.value.attr[k], r.value.binary[k], r.value.relation[k]));
    }
    assert r.value.attr == c.attr && r.value.binary == c.binary && r.value.relation == c.relation;
  }

  /**
   * The edge loop of sample assembly: one pass over the columns that appends
   * to the three lists, stopping at the first column whose type or attribute
   * is missing.
   */
  method DeriveEdgeFeatures(edges: seq<Edge>, types: seq<string>, table: AttrTable) returns (r: Result<EdgeColumns, Failure>)
    ensures r == EdgeFeatures(edges, types, table, |edges|)
  {
    var attr: seq<Attr> := [];
    var binary: seq<int> := [];
    var relation: seq<int> := [];
    var i := 0;
    while i < |edges|
      invariant 0 <= i <= |edges|
      invariant |attr| == |binary| == |relation| == i
      invariant forall k :: 0 <= k < i ==> EdgeColumn(edges, types, table, k) == Ok(EdgeEntry(attr[k], binary[k], relation[k]))
    {
      if i >= |types| {
        ColumnsDetermineFeatures(edges, types, table, i, EdgeColumns(attr, binary, relation));
        FailureIsFinal(edges, types, table, i, |edges|);
        return Err(IndexOutOfRange);
      }
      var e, ty := edges[i], types[i];
      if e.src >= |table| {
        ColumnsDetermineFeatures(edges, types, table, i, EdgeColumns(attr, binary, relation));
        FailureIsFinal(edges, types, table, i, |edges|);
        return Err(IndexOutOfRange);
      }
      if ty !in table[e.src] {
        ColumnsDetermineFeatures(edges, types, table, i, EdgeColumns(attr, binary, relation));
        FailureIsFinal(edges, types, table, i, |edges|);
        return Err(MissingKey);
      }
      attr := attr + [table[e.src][ty]];
      binary := binary + [if ty == "oWant" then 1 else 0];
      if e.dst <= e.src {
        relation := relation + [2];
      } else if ty == "xWant" {
        relation := relation + [0];
      } else {
        relation := relation + [1];
      }
      i := i + 1;
    }
    ColumnsDetermineFeatures(edges, types, table, i, EdgeColumns(attr, binary, relation));
    return Ok(EdgeColumns(attr, binary, relation));
  }

  /**
   * The entry of a column depends on that column alone: two columns with the
   * same endpoints and type give the same entry, wherever they stand.
   */
  lemma ColumnIsLocal(edges: seq<Edge>, types: seq<string>, i: nat, edges': seq<Edge>, types': seq<string>, j: nat, table: AttrTable)
    requires i < |edges| && i < |types| && j < |edges'| && j < |types'|
    requires edges[i] == edges'[j] && types[i] == types'[j]
    ensures EdgeColumn(edges, types, table, i) == EdgeColumn(edges', types', table, j)
  {
  }

  /** The fixed cases: direction dominates the type, and the flag ignores direction. */
  lemma RelationExamples()
    ensures RelationCode(Edge(2, 1), "xWant") == 2 && OWantFlag("xWant") == 0
    ensures RelationCode(Edge(1, 2), "xWant") == 0
    ensures RelationCode(Edge(1, 2), "iWant") == 1
    ensures RelationCode(Edge(1, 2), "oWant") == 1 && OWantFlag("oWant") == 1
    ensures RelationCode(Edge(3, 3), "oWant") == 2
  {
  }

  /** The edge loop on one forward "xWant" edge. */
  lemma EdgeLoopExample(table: AttrTable)
    requires table == [map["xWant" := [0.5]], map[]]
    ensures EdgeFeatures([Edge(0, 1)], ["xWant"], table, 1) == Ok(EdgeColumns([[0.5]], [0], [0]))
  {
    var edges, types := [Edge(0, 1)], ["xWant"];
    assert EdgeColumn(edges, types, table, 0) == Ok(EdgeEntry([0.5], 0, 0));
    assert EdgeFeatures(edges, types, table, 0) == Ok(EdgeColumns([], [], []));
    assert [] + [[0.5]] == [[0.5]] && [] + [0] == [0];
  }
}
