/**
 * The pipeline board: contacts grouped into one column per status, each
 * column headed by its lead count.
 */

module PipelineBoard {
  import opened Sequences
  import opened Text
  import opened Domain

  /** The board's columns, left to right. */
  const StatusOrder: seq<ContactStatus> :=
    [New, ContactStatus.Discovery, Proposal, ContactStatus.Negotiation, Won, Lost]

  /** One column of the board: a status and the contacts in it. */
  datatype Column = Column(status: ContactStatus, items: seq<ContactRecord>)

  function HasStatus(status: ContactStatus): ContactRecord -> bool {
    (c: ContactRecord) => c.status == status
  }

  /** Every status has exactly one column. */
  lemma StatusOrderIsComplete(status: ContactStatus)
    ensures status in StatusOrder
    ensures NoDuplicates(StatusOrder)
  {
  }

  /** The columns: for each status in board order, the contacts holding it, in contact-list order. */
  function Grouped(contacts: seq<ContactRecord>): (r: seq<Column>)
    ensures |r| == |StatusOrder|
    ensures forall i :: 0 <= i < |r| ==> r[i].status == StatusOrder[i]
    ensures forall i, j :: 0 <= i < |r| && 0 <= j < |r[i].items| ==> r[i].items[j].status == r[i].status
  {
    seq(|StatusOrder|, i requires 0 <= i < |StatusOrder| =>
      Column(StatusOrder[i], Filter(contacts, HasStatus(StatusOrder[i]))))
  }

  /** A contact sits in a column exactly when the column is for its status: so in exactly one column. */
  lemma ContactInItsColumn(contacts: seq<ContactRecord>, k: nat, i: nat)
    requires k < |contacts| && i < |StatusOrder|
    ensures contacts[k] in Grouped(contacts)[i].items <==> StatusOrder[i] == contacts[k].status
  {
    assert Grouped(contacts)[i].items == Filter(contacts, HasStatus(StatusOrder[i]));
  }

  function ItemCount(column: Column): int {
    |column.items|
  }

  /** The sum over a board's six columns, term by term. */
  lemma SumOfSix(g: seq<Column>)
    requires |g| == 6
    ensures SumBy(g, ItemCount)
      == |g[0].items| + |g[1].items| + |g[2].items| + |g[3].items| + |g[4].items| + |g[5].items|
  {
    assert SumBy(g, ItemCount) == SumBy(g[..5], ItemCount) + |g[5].items|;
    assert SumBy(g[..5], ItemCount) == SumBy(g[..4], ItemCount) + |g[4].items| by { assert g[..5][..4] == g[..4]; }
    assert SumBy(g[..4], ItemCount) == SumBy(g[..3], ItemCount) + |g[3].items| by { assert g[..4][..3] == g[..3]; }
    assert SumBy(g[..3], ItemCount) == SumBy(g[..2], ItemCount) + |g[2].items| by { assert g[..3][..2] == g[..2]; }
    assert SumBy(g[..2], ItemCount) == SumBy(g[..1], ItemCount) + |g[1].items| by { assert g[..2][..1] == g[..1]; }
    assert SumBy(g[..1], ItemCount) == |g[0].items| by { assert g[..1][..0] == []; }
  }

  /** How many contacts hold `status`. */
  function CountWith(contacts: seq<ContactRecord>, status: ContactStatus): nat {
    |Filter(contacts, HasStatus(status))|
  }

  /** The board's total is the sum of the six per-status counts. */
  lemma BoardTotal(contacts: seq<ContactRecord>)
    ensures SumBy(Grouped(contacts), ItemCount)
      == CountWith(contacts, New) + CountWith(contacts, ContactStatus.Discovery) + CountWith(contacts, Proposal)
       + CountWith(contacts, ContactStatus.Negotiation) + CountWith(contacts, Won) + CountWith(contacts, Lost)
  {
    SumOfSix(Grouped(contacts));
  }

  /** A contact added at the end of the list counts for its own status only. */
  lemma CountWithSnoc(init: seq<ContactRecord>, last: ContactRecord, status: ContactStatus)
    ensures CountWith(init + [last], status) == CountWith(init, status) + (if last.status == status then 1 else 0)
  {
    FilterSnoc(init, last, HasStatus(status));
  }

  /** The columns partition the contacts: their sizes add up to the number of contacts. */
  lemma {:induction false} ColumnSizesSum(contacts: seq<ContactRecord>)
    ensures SumBy(Grouped(contacts), ItemCount) == |contacts|
  {
    BoardTotal(contacts);
    if contacts != [] {
      var init, last := contacts[..|contacts| - 1], contacts[|contacts| - 1];
      assert contacts == init + [last];
      ColumnSizesSum(init);
      BoardTotal(init);
      CountWithSnoc(init, last, New);
      CountWithSnoc(init, last, ContactStatus.Discovery);
      CountWithSnoc(init, last, Proposal);
      CountWithSnoc(init, last, ContactStatus.Negotiation);
      CountWithSnoc(init, last, Won);
      CountWithSnoc(init, last, Lost);
    }
  }

  /** Columns keep the contact list's order: the contacts of an earlier stretch come first. */
  lemma ColumnsKeepOrder(a: seq<ContactRecord>, b: seq<ContactRecord>, i: nat)
    requires i < |StatusOrder|
    ensures Grouped(a + b)[i].items == Grouped(a)[i].items + Grouped(b)[i].items
  {
    FilterConcat(a, b, HasStatus(StatusOrder[i]));
  }

  /** The column header's count: "1 lead", otherwise "<n> leads". */
  function LeadLabel(n: nat): (r: string)
    ensures |NatToString(n)| + 5 <= |r| && r[..|NatToString(n)|] == NatToString(n)
    ensures r[|NatToString(n)|..|NatToString(n)| + 5] == " lead"
  {
    NatToString(n) + " lead" + (if n == 1 then "" else "s")
  }

  /** The label starts with the count and is plural exactly when the count is not one. */
  lemma LeadLabelPlural(n: nat)
    ensures LeadLabel(n)[..|NatToString(n)|] == NatToString(n)
    ensures LeadLabel(n)[|LeadLabel(n)| - 1] == 's' <==> n != 1
    ensures LeadLabel(1) == "1 lead"
    ensures DigitsValue(LeadLabel(n)[..|NatToString(n)|]) == n
  {
    NatToStringValue(n);
    assert (NatToString(n) + " lead" + (if n == 1 then "" else "s"))[..|NatToString(n)|] == NatToString(n);
  }
}
