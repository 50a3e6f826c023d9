/** The document store, reduced to what the service relies on: documents
    addressed by id inside a collection, whole-document reads, and the
    shapes the service builds from a read. */
module Firestore {
  import opened Json

  /** A document id inside a collection. */
  type Id = string

  /** A stored document: the id the store addresses it by, and its fields. */
  datatype Doc = Doc(id: Id, data: Record)

  /** Whether `collection.doc(s)` accepts `s` as the id of a document of that
      collection: a non-empty string without a slash. The store rejects any
      other argument (a missing field, a number, an object) before reading. */
  predicate IsDocId(s: string)
  {
    s != "" && '/' !in s
  }

  /** A read document as the service returns it: its stored fields spread
      over an object holding its storage id. Because the fields come second,
      a stored `id` field replaces the storage id. */
  function WithId(id: Id, data: Record): (r: Record)
    ensures SpreadOf(r, map["id" := Str(id)], data)
    ensures "id" in r
    ensures "id" !in data ==> r["id"] == Str(id)
    ensures "id" in data ==> r["id"] == data["id"]
  {
    map["id" := Str(id)] + data
  }

  /** The order in which a read of a whole collection returns the documents
      with the given ids: every id once, in an order the model leaves open. */
  ghost function DocOrder(ids: set<Id>): (o: seq<Id>)
    ensures |o| == |ids|
    ensures forall i :: 0 <= i < |o| ==> o[i] in ids
    ensures forall id :: id in ids ==> id in o
    ensures forall i, j :: 0 <= i < j < |o| ==> o[i] != o[j]
    decreases ids
  {
    if ids == {} then []
    else
      var id :| id in ids;
      [id] + DocOrder(ids - {id})
  }

  /** The documents of `table` read in the order `o`, each as its fields
      over its id. */
  function ListInOrder(table: map<Id, Record>, o: seq<Id>): seq<Record>
    requires forall i :: 0 <= i < |o| ==> o[i] in table
  {
    seq(|o|, i requires 0 <= i < |o| => WithId(o[i], table[o[i]]))
  }

  /** A whole-collection read, each document shaped by `WithId`, over a
      collection held as a table from id to fields. */
  ghost function ListTable(table: map<Id, Record>): (r: seq<Record>)
    ensures |r| == |table|
  {
    assert |table| == |table.Keys|;
    ListInOrder(table, DocOrder(table.Keys))
  }

  /** Every object a collection read returns is built from one stored
      document. */
  lemma {:induction false} ListTableFromDocs(table: map<Id, Record>)
    ensures forall i :: 0 <= i < |ListTable(table)| ==>
      exists id :: id in table && ListTable(table)[i] == WithId(id, table[id])
  {
    var o := DocOrder(table.Keys);
    var r := ListTable(table);
    assert r == ListInOrder(table, o);
    forall i | 0 <= i < |r|
      ensures exists id :: id in table && r[i] == WithId(id, table[id])
    {
      InOrderFromDoc(table, o, i);
    }
  }

  lemma InOrderFromDoc(table: map<Id, Record>, o: seq<Id>, i: nat)
    requires forall j :: 0 <= j < |o| ==> o[j] in table
    requires i < |o|
    ensures exists id :: id in table && ListInOrder(table, o)[i] == WithId(id, table[id])
  {
    assert ListInOrder(table, o)[i] == WithId(o[i], table[o[i]]);
  }

  /** Every stored document appears in a collection read. */
  lemma {:induction false} ListTableHasEveryDoc(table: map<Id, Record>)
    ensures forall id :: id in table ==>
      exists i :: 0 <= i < |ListTable(table)| && ListTable(table)[i] == WithId(id, table[id])
  {
    var o := DocOrder(table.Keys);
    assert ListTable(table) == ListInOrder(table, o);
    forall id | id in table
      ensures exists i :: 0 <= i < |o| && ListInOrder(table, o)[i] == WithId(id, table[id])
    {
      InOrderHasDoc(table, o, id);
    }
  }

  lemma InOrderHasDoc(table: map<Id, Record>, o: seq<Id>, id: Id)
    requires forall i :: 0 <= i < |o| ==> o[i] in table
    requires id in table && id in o
    ensures exists i :: 0 <= i < |o| && ListInOrder(table, o)[i] == WithId(id, table[id])
  {
    var i :| 0 <= i < |o| && o[i] == id;
    assert ListInOrder(table, o)[i] == WithId(o[i], table[o[i]]);
  }

  /** A collection read is the table's documents listed in some order that
      names every id exactly once. */
  lemma ListTableIsEnumeration(table: map<Id, Record>)
    ensures exists o: seq<Id> ::
      && |o| == |table|
      && (forall id :: id in table <==> id in o)
      && (forall i, j :: 0 <= i < j < |o| ==> o[i] != o[j])
      && ListTable(table) == ListInOrder(table, o)
  {
    var o := DocOrder(table.Keys);
    assert ListTable(table) == ListInOrder(table, o);
  }

  /** The same read over a collection held as a sequence of documents, in
      that sequence's order. */
  function ListDocs(docs: seq<Doc>): seq<Record>
  {
    seq(|docs|, i requires 0 <= i < |docs| => WithId(docs[i].id, docs[i].data))
  }
}
