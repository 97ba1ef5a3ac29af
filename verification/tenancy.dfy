/** Consequences across modules of the ownership the code leaves unset: the
    worker creates documents without an owner, and budget spending only
    counts transactions of documents the user owns. */
module Tenancy {
  import opened Common
  import opened Records
  import Pipeline
  import Budgets

  /** Adding a document without an owner changes nobody's ownership. */
  lemma UnownedDocumentKeepsOwnership(docs: seq<Document>, d: Document, user: nat, docId: nat)
    requires d.userId.None?
    ensures Budgets.OwnedBy(docs + [d], user, docId) <==> Budgets.OwnedBy(docs, user, docId)
  {
    if Budgets.OwnedBy(docs + [d], user, docId) {
      var k :| 0 <= k < |docs + [d]| && (docs + [d])[k].id == docId && (docs + [d])[k].userId == Some(user);
      assert k < |docs|;
      assert docs[k] == (docs + [d])[k];
    }
    if Budgets.OwnedBy(docs, user, docId) {
      var k :| 0 <= k < |docs| && docs[k].id == docId && docs[k].userId == Some(user);
      assert (docs + [d])[k] == docs[k];
    }
  }

  /** `spent` depends on the documents only through their ownership. */
  lemma {:induction false} SpentUnderSameOwnership(docs: seq<Document>, docs': seq<Document>, txs: seq<TxRow>,
                                                   user: nat, category: string)
    requires forall k :: 0 <= k < |txs| ==>
               (Budgets.OwnedBy(docs, user, txs[k].documentId) <==> Budgets.OwnedBy(docs', user, txs[k].documentId))
    ensures Budgets.Spent(docs, txs, user, category) == Budgets.Spent(docs', txs, user, category)
  {
    if txs != [] {
      SpentUnderSameOwnership(docs, docs', txs[..|txs| - 1], user, category);
    }
  }

  /** A document without an owner, and rows that belong to it, add nothing
      to anybody's spending. */
  lemma UnownedUploadAddsNoSpending(docs: seq<Document>, txs: seq<TxRow>, d: Document, rows: seq<TxRow>,
                                    user: nat, category: string)
    requires d.userId.None?
    requires forall k :: 0 <= k < |docs| ==> docs[k].id != d.id
    requires forall k :: 0 <= k < |rows| ==> rows[k].documentId == d.id
    ensures Budgets.Spent(docs + [d], txs + rows, user, category) == Budgets.Spent(docs, txs, user, category)
  {
    var docs' := docs + [d];
    forall k | 0 <= k < |txs + rows|
      ensures Budgets.OwnedBy(docs', user, (txs + rows)[k].documentId) <==> Budgets.OwnedBy(docs, user, (txs + rows)[k].documentId)
    {
      UnownedDocumentKeepsOwnership(docs, d, user, (txs + rows)[k].documentId);
    }
    SpentUnderSameOwnership(docs', docs, txs + rows, user, category);
    Budgets.SpentIgnoresOthers(docs, txs, rows, [], user, category);
    assert txs + rows + [] == txs + rows;
    assert txs + [] == txs;
  }

  /** Processing an uploaded statement never changes any budget's `spent`:
      the new document has no owner, so neither it nor its rows count for
      anyone. */
  lemma ProcessingAddsNoSpending(
    docs: seq<Document>, txs: seq<TxRow>, user: nat, category: string,
    filePath: string, docId: nat, now: int, today: int,
    structured: Result<seq<Pipeline.Candidate>>, store: Pipeline.VectorStore, show: real -> string)
    requires forall k :: 0 <= k < |docs| ==> docs[k].id != docId
    ensures var r := Pipeline.ProcessDocumentTask(filePath, docId, now, today, structured, store, show);
            Budgets.Spent(docs + [r.document], txs + r.committedRows, user, category)
              == Budgets.Spent(docs, txs, user, category)
  {
    var r := Pipeline.ProcessDocumentTask(filePath, docId, now, today, structured, store, show);
    UnownedUploadAddsNoSpending(docs, txs, r.document, r.committedRows, user, category);
  }
}
