/** The two CSV exports of frontend/app/(school)/audit/page.tsx, which fetch a log page by page. */
module AuditExport {
  import opened Options
  import opened Paging
  import opened Csv

  const EXPORT_PAGE: nat := 200
  const EXPORT_CAP: nat := 10000

  datatype Page<R> = Page(items: seq<R>, total: int)

  function Cells<R>(items: seq<R>, toRow: R -> Record): (rows: seq<Record>)
    ensures |rows| == |items| && forall i :: 0 <= i < |items| ==> rows[i] == toRow(items[i])
  {
    seq(|items|, i requires 0 <= i < |items| => toRow(items[i]))
  }

  /** The items of the first k answers, in order. */
  function Received<R>(serve: nat -> Page<R>, k: nat): seq<R> {
    if k == 0 then [] else Received(serve, k - 1) + serve(k - 1).items
  }

  /** After k requests the loop has a reason to stop. */
  predicate Stops<R>(serve: nat -> Page<R>, k: nat)
    requires k > 0
  {
    || |Received(serve, k)| >= EXPORT_CAP
    || |serve(k - 1).items| < EXPORT_PAGE
    || EXPORT_PAGE * k >= serve(k - 1).total
  }

  ghost predicate FirstStop<R>(serve: nat -> Page<R>, k: nat) {
    k > 0 && Stops(serve, k) && forall j :: 0 < j < k ==> !Stops(serve, j)
  }

  /** As long as the loop goes on, each answer was a full page and the cap is not reached. */
  lemma {:induction false} GoingOn<R>(serve: nat -> Page<R>, k: nat)
    requires forall j :: 0 < j <= k ==> !Stops(serve, j)
    ensures |Received(serve, k)| >= EXPORT_PAGE * k
    ensures k < 50
    decreases k
  {
    if k > 0 {
      GoingOn(serve, k - 1);
      assert !Stops(serve, k);
    }
  }

  /** The loop without an exit condition of its own: against any server it ends at the first reason to
      stop, after at most 50 requests. `serve(k)` is whatever the server answers to request k. */
  method FetchAll<R>(serve: nat -> Page<R>, toRow: R -> Record)
    returns (rows: seq<Record>, capped: bool, requests: nat)
    ensures 1 <= requests <= 50 && FirstStop(serve, requests)
    ensures rows == Cells(Received(serve, requests), toRow)
    ensures capped <==> |rows| >= EXPORT_CAP && EXPORT_PAGE * requests < serve(requests - 1).total
  {
    rows, capped, requests := [], false, 0;
    var off := 0;
    while true
      invariant off == EXPORT_PAGE * requests && !capped
      invariant rows == Cells(Received(serve, requests), toRow)
      invariant forall j :: 0 < j <= requests ==> !Stops(serve, j)
      decreases 50 - requests
    {
      GoingOn(serve, requests);
      var p := serve(requests);
      requests := requests + 1;
      rows := rows + Cells(p.items, toRow);
      off := off + EXPORT_PAGE;
      if |rows| >= EXPORT_CAP {
        capped := off < p.total;
        break;
      }
      if |p.items| < EXPORT_PAGE || off >= p.total {
        break;
      }
    }
  }

  // ---------------------------------------------------------------- against a stable list

  /** The server pages through one list that does not change. */
  ghost predicate Stable<R(!new)>(serve: nat -> Page<R>, list: seq<R>) {
    forall k: nat ::
      serve(k) == Page(list[Min(EXPORT_PAGE * k, |list|)..Min(EXPORT_PAGE * k + EXPORT_PAGE, |list|)], |list|)
  }

  /** What the server answers to request k. */
  lemma Answer<R(!new)>(serve: nat -> Page<R>, list: seq<R>, k: nat)
    requires Stable(serve, list)
    ensures serve(k) == Page(list[Min(EXPORT_PAGE * k, |list|)..Min(EXPORT_PAGE * k + EXPORT_PAGE, |list|)], |list|)
  {
  }

  lemma {:induction false} ReceivedIsFront<R(!new)>(serve: nat -> Page<R>, list: seq<R>, k: nat)
    requires Stable(serve, list)
    ensures Received(serve, k) == list[..Min(EXPORT_PAGE * k, |list|)]
    decreases k
  {
    hide Stable;
    if k > 0 {
      ReceivedIsFront(serve, list, k - 1);
      Answer(serve, list, k - 1);
      FrontGrows(list, Min(EXPORT_PAGE * (k - 1), |list|), Min(EXPORT_PAGE * k, |list|));
    }
  }

  lemma StopOnStable<R(!new)>(serve: nat -> Page<R>, list: seq<R>, k: nat)
    requires Stable(serve, list) && k > 0
    ensures Stops(serve, k) <==> EXPORT_PAGE * k >= Min(|list|, EXPORT_CAP)
  {
    hide Stable, Received;
    ReceivedIsFront(serve, list, k);
    Answer(serve, list, k - 1);
  }

  /** Against a stable list the export is its first 10000 rows, in order, flagged as capped exactly when
      there are more, with no request beyond those needed. */
  lemma StableExport<R(!new)>(serve: nat -> Page<R>, list: seq<R>, requests: nat)
    requires Stable(serve, list) && FirstStop(serve, requests)
    ensures requests == if |list| == 0 then 1 else (Min(|list|, 10000) + 199) / 200
    ensures Received(serve, requests) == list[..Min(|list|, 10000)]
    ensures (|Received(serve, requests)| >= EXPORT_CAP && EXPORT_PAGE * requests < serve(requests - 1).total)
       <==> |list| > 10000
  {
    hide Stops, Received, Stable;
    var n := Min(|list|, EXPORT_CAP);
    StopOnStable(serve, list, requests);
    if requests > 1 {
      StopOnStable(serve, list, requests - 1);
      assert !Stops(serve, requests - 1);
    }
    CeilingIsUnique(n, requests);
    ReceivedIsFront(serve, list, requests);
    Answer(serve, list, requests - 1);
    assert requests <= 50;
  }

  lemma CeilingIsUnique(n: nat, k: nat)
    requires k > 0 && EXPORT_PAGE * k >= n && (k > 1 ==> EXPORT_PAGE * (k - 1) < n)
    ensures k == if n == 0 then 1 else (n + EXPORT_PAGE - 1) / EXPORT_PAGE
  {
  }

  // ---------------------------------------------------------------- the file

  /** The saved file, or none when there is nothing to export. */
  method ExportCsv<R>(serve: nat -> Page<R>, toRow: R -> Record, header: Record)
    returns (file: Option<string>, capped: bool, requests: nat)
    ensures 1 <= requests <= 50 && FirstStop(serve, requests)
    ensures var items := Received(serve, requests);
            && (file == None <==> items == [])
            && (file.Some? ==> file.value == ToCsv(header, Cells(items, toRow)))
            && (capped <==> |items| >= EXPORT_CAP && EXPORT_PAGE * requests < serve(requests - 1).total)
  {
    var rows, c, n := FetchAll(serve, toRow);
    capped, requests := c, n;
    file := if |rows| == 0 then None else Some(ToCsv(header, rows));
  }

  /** What is exported of a stable list reads back as the header and the list's first 10000 rows. */
  lemma ExportReadsBack<R(!new)>(serve: nat -> Page<R>, toRow: R -> Record, header: Record, list: seq<R>, requests: nat)
    requires Stable(serve, list) && FirstStop(serve, requests)
    requires |header| > 1 && forall r :: |toRow(r)| > 1
    ensures Tokenize(ToCsv(header, Cells(Received(serve, requests), toRow)))
         == [header] + Cells(list[..Min(|list|, 10000)], toRow)
  {
    hide Stable, FirstStop, Received, Tokenize, ToCsv;
    StableExport(serve, list, requests);
    var rows := Cells(list[..Min(|list|, EXPORT_CAP)], toRow);
    var table := [header] + rows;
    assert forall i :: 0 <= i < |table| ==> |table[i]| > 1;
    RoundTrip(header, rows);
  }
}
