/**
  The mapper list of a subblock as a map from vmrs to page-table pointers: what each operation on the list does to the
  records in it, pointers included.
 */
module MapperRecords {
  import opened MapperList

  /** Inserting records the vmr with the pmd given, unless it maps already, and changes no record there is. */
  lemma InsertKeepsRecords(p: PageState, v: Vmr, pmd: Pmd, r: Record)
    ensures r in Inserted(p, v, pmd).records <==> r in p.records || (v !in Mappers(p) && r == Record(v, pmd))
  {
    if p.records != [] && v !in Mappers(p) {
      var e, n := [p.records[0]], [Record(v, pmd)];
      assert p.records == e + p.records[1..] && Inserted(p, v, pmd).records == e + n + p.records[1..];
    }
  }

  /** Popping takes the record of the vmr and leaves the others with their pmds. */
  lemma PopKeepsRecords(p: PageState, v: Vmr, r: Record)
    requires Legal(p)
    ensures r in Popped(p, v).records <==> r in p.records && r.vmr != v
  {
    var i := Find(p.records, v);
    if i < |p.records| {
      var a, b := p.records[..i], p.records[i + 1..];
      assert p.records == a + [p.records[i]] + b;
      assert r in Popped(p, v).records <==> r in a || r in b;
      forall x | x in a || x in b
        ensures x.vmr != v
      {
      }
    }
  }

  /** Promotion exchanges two records and changes neither. */
  lemma PromoteKeepsRecords(p: PageState, v: Vmr, r: Record)
    ensures r in Promoted(p, v).records <==> r in p.records
  {
    var q, i := Promoted(p, v), Find(p.records, v);
    if q != p {
      if r in p.records {
        var j :| 0 <= j < |p.records| && p.records[j] == r;
        assert q.records[if j == 0 then i else if j == i then 0 else j] == r;
      }
      if r in q.records {
        var k :| 0 <= k < |q.records| && q.records[k] == r;
        assert p.records[if k == 0 then i else if k == i then 0 else k] == r;
      }
    }
  }
}
