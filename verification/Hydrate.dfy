/** Rebuilding a finished turn from its filed event log. */
module Hydrate {
  import opened Common
  import opened AgentState
  import opened Graph
  import opened Workflow
  import opened GraphSafety
  import opened Runs

  datatype TraceRow = TraceRow(node: string, kind: Kind, detail: string)

  datatype Span = Span(nodeName: Option<string>, rows: seq<TraceRow>, route: Option<string>)

  const ENGINE_CARD_NODES: set<string> := {"approval", "engine"}

  function BeforeColon(detail: string): string {
    if detail == "" || detail[0] == ':' then "" else [detail[0]] + BeforeColon(detail[1..])
  }

  /** The route that the last route_selected row of a span chose. */
  function RouteFrom(rows: seq<TraceRow>): Option<string> {
    if rows == [] then None
    else if rows[|rows| - 1].kind == RouteSelected then Some(BeforeColon(rows[|rows| - 1].detail))
    else RouteFrom(rows[..|rows| - 1])
  }

  // -- what a log says, piece by piece ---------------------------------------------------

  /** A stretch of the log: a node's execution, an engine card, or a row of neither. */
  datatype Piece =
    | Execution(rows: seq<TraceRow>)
    | Card(row: TraceRow)
    | Loose(row: TraceRow)

  datatype Walk = Walk(pieces: seq<Piece>, open: seq<TraceRow>)

  function Closed(w: Walk): seq<Piece> {
    if w.open == [] then w.pieces else w.pieces + [Execution(w.open)]
  }

  function WalkOn(w: Walk, row: TraceRow): Walk {
    if row.kind == NodeEntered then Walk(Closed(w), [row])
    else if row.kind == NodeExited then
      if w.open == [] then w else Walk(w.pieces + [Execution(w.open + [row])], [])
    else if w.open != [] then w.(open := w.open + [row])
    else if row.node in ENGINE_CARD_NODES then w.(pieces := w.pieces + [Card(row)])
    else w.(pieces := w.pieces + [Loose(row)])
  }

  function WalkOf(rows: seq<TraceRow>): Walk {
    if rows == [] then Walk([], []) else WalkOn(WalkOf(rows[..|rows| - 1]), rows[|rows| - 1])
  }

  function Pieces(rows: seq<TraceRow>): seq<Piece> { Closed(WalkOf(rows)) }

  lemma WalkPush(rows: seq<TraceRow>, row: TraceRow)
    ensures WalkOf(rows + [row]) == WalkOn(WalkOf(rows), row)
  {
    assert (rows + [row])[..|rows|] == rows;
  }

  function RowsIn(piece: Piece): seq<TraceRow> {
    match piece
    case Execution(rows) => rows
    case Card(row) => [row]
    case Loose(row) => [row]
  }

  function Flat(pieces: seq<Piece>): seq<TraceRow> {
    if pieces == [] then [] else Flat(pieces[..|pieces| - 1]) + RowsIn(pieces[|pieces| - 1])
  }

  function SpanOf(piece: Piece): Span
    requires !piece.Loose? && RowsIn(piece) != []
  {
    match piece
    case Execution(rows) => Span(Some(rows[0].node), rows, RouteFrom(rows))
    case Card(row) => Span(None, [row], None)
  }

  predicate Solid(pieces: seq<Piece>) {
    forall k :: 0 <= k < |pieces| ==> RowsIn(pieces[k]) != []
  }

  function SpansOf(pieces: seq<Piece>): seq<Span>
    requires Solid(pieces)
  {
    if pieces == [] then []
    else
      var last := pieces[|pieces| - 1];
      SpansOf(pieces[..|pieces| - 1]) + if last.Loose? then [] else [SpanOf(last)]
  }

  function Repeated(mark: Option<nat>, n: nat): (r: seq<Option<nat>>)
    ensures |r| == n && forall i :: 0 <= i < n ==> r[i] == mark
  {
    seq(n, i => mark)
  }

  /** For each row of the pieces, the span it belongs to. */
  function Marks(pieces: seq<Piece>): seq<Option<nat>>
    requires Solid(pieces)
  {
    if pieces == [] then []
    else
      var last := pieces[|pieces| - 1];
      var before := pieces[..|pieces| - 1];
      Marks(before) + if last.Loose? then [None] else Repeated(Some(|SpansOf(before)|), |RowsIn(last)|)
  }

  lemma {:induction false} WalkIsSolid(rows: seq<TraceRow>)
    ensures Solid(WalkOf(rows).pieces) && Solid(Pieces(rows))
    ensures WalkOf(rows).open != [] ==> WalkOf(rows).open[0].kind == NodeEntered
  {
    if rows != [] {
      WalkIsSolid(rows[..|rows| - 1]);
    }
  }

  lemma AnotherPiece(pieces: seq<Piece>, piece: Piece)
    requires Solid(pieces) && RowsIn(piece) != []
    ensures Solid(pieces + [piece])
    ensures SpansOf(pieces + [piece]) == SpansOf(pieces) + if piece.Loose? then [] else [SpanOf(piece)]
    ensures Marks(pieces + [piece])
         == Marks(pieces) + if piece.Loose? then [None] else Repeated(Some(|SpansOf(pieces)|), |RowsIn(piece)|)
    ensures Flat(pieces + [piece]) == Flat(pieces) + RowsIn(piece)
  {
    assert (pieces + [piece])[..|pieces|] == pieces;
  }

  // -- the walk as it is written ------------------------------------------------------------

  ghost predicate Tracks(w: Walk, spans: seq<Span>, rowSpans: seq<Option<nat>>, open: Option<seq<TraceRow>>) {
    && Solid(w.pieces)
    && spans == SpansOf(w.pieces) && rowSpans == Marks(w.pieces)
    && (open.Some? ==> open.value != [])
    && w.open == if open.Some? then open.value else []
  }

  function OpenSpan(rows: seq<TraceRow>): Span
    requires rows != []
  {
    Span(Some(rows[0].node), rows, RouteFrom(rows))
  }

  function ClosedSpans(spans: seq<Span>, open: Option<seq<TraceRow>>): seq<Span>
    requires open.Some? ==> open.value != []
  {
    spans + if open.Some? then [OpenSpan(open.value)] else []
  }

  function ClosedMarks(spans: seq<Span>, rowSpans: seq<Option<nat>>, open: Option<seq<TraceRow>>): seq<Option<nat>> {
    rowSpans + if open.Some? then Repeated(Some(|spans|), |open.value|) else []
  }

  lemma ClosedTracks(w: Walk, spans: seq<Span>, rowSpans: seq<Option<nat>>, open: Option<seq<TraceRow>>)
    requires Tracks(w, spans, rowSpans, open)
    ensures Tracks(Walk(Closed(w), []), ClosedSpans(spans, open), ClosedMarks(spans, rowSpans, open), None)
  {
    if open.Some? {
      AnotherPiece(w.pieces, Execution(open.value));
    }
  }

  lemma EnteredTracks(w: Walk, row: TraceRow, spans: seq<Span>, rowSpans: seq<Option<nat>>, open: Option<seq<TraceRow>>)
    requires Tracks(w, spans, rowSpans, open) && row.kind == NodeEntered
    ensures Tracks(WalkOn(w, row), ClosedSpans(spans, open), ClosedMarks(spans, rowSpans, open), Some([row]))
  {
    ClosedTracks(w, spans, rowSpans, open);
  }

  lemma ExitedTracks(w: Walk, row: TraceRow, spans: seq<Span>, rowSpans: seq<Option<nat>>, open: Option<seq<TraceRow>>)
    requires Tracks(w, spans, rowSpans, open) && row.kind == NodeExited
    ensures var last := if open.Some? then Some(open.value + [row]) else None;
            Tracks(WalkOn(w, row), ClosedSpans(spans, last), ClosedMarks(spans, rowSpans, last), None)
  {
    if open.Some? {
      ClosedTracks(Walk(w.pieces, open.value + [row]), spans, rowSpans, Some(open.value + [row]));
    }
  }

  lemma OtherTracks(w: Walk, row: TraceRow, spans: seq<Span>, rowSpans: seq<Option<nat>>, open: Option<seq<TraceRow>>)
    requires Tracks(w, spans, rowSpans, open) && row.kind != NodeEntered && row.kind != NodeExited
    ensures open.Some? ==> Tracks(WalkOn(w, row), spans, rowSpans, Some(open.value + [row]))
    ensures open.None? && row.node in ENGINE_CARD_NODES ==>
              Tracks(WalkOn(w, row), spans + [Span(None, [row], None)], rowSpans + [Some(|spans|)], None)
    ensures open.None? && row.node !in ENGINE_CARD_NODES ==> Tracks(WalkOn(w, row), spans, rowSpans + [None], None)
  {
    if open.None? {
      AnotherPiece(w.pieces, Card(row));
      AnotherPiece(w.pieces, Loose(row));
      assert Repeated(Some(|spans|), 1) == [Some(|spans|)];
    }
  }

  /** A node_entered opens a span, a node_exited closes it, and a row outside any span is
      an engine card or stepless. */
  method SpansFromEvents(rows: seq<TraceRow>) returns (spans: seq<Span>, rowSpans: seq<Option<nat>>)
    ensures Solid(Pieces(rows))
    ensures spans == SpansOf(Pieces(rows)) && rowSpans == Marks(Pieces(rows))
  {
    spans, rowSpans := [], [];
    var open: Option<seq<TraceRow>> := None;
    for i := 0 to |rows|
      invariant Tracks(WalkOf(rows[..i]), spans, rowSpans, open)
    {
      var row := rows[i];
      ghost var before := WalkOf(rows[..i]);
      assert rows[..i + 1] == rows[..i] + [row];
      WalkPush(rows[..i], row);
      if row.kind == NodeEntered {
        EnteredTracks(before, row, spans, rowSpans, open);
        spans, rowSpans := Close(spans, rowSpans, open);
        open := Some([row]);
      } else if row.kind == NodeExited {
        ExitedTracks(before, row, spans, rowSpans, open);
        if open.Some? {
          open := Some(open.value + [row]);
        }
        spans, rowSpans := Close(spans, rowSpans, open);
        open := None;
      } else {
        OtherTracks(before, row, spans, rowSpans, open);
        if open.Some? {
          open := Some(open.value + [row]);
        } else if row.node in ENGINE_CARD_NODES {
          rowSpans := rowSpans + [Some(|spans|)];
          spans := spans + [Span(None, [row], None)];
        } else {
          rowSpans := rowSpans + [None];
        }
      }
    }
    assert rows[..|rows|] == rows;
    ClosedTracks(WalkOf(rows), spans, rowSpans, open);
    spans, rowSpans := Close(spans, rowSpans, open);
  }

  /** Push the open span, one mark for each of its rows. */
  method Close(spans: seq<Span>, rowSpans: seq<Option<nat>>, open: Option<seq<TraceRow>>)
    returns (closed: seq<Span>, marked: seq<Option<nat>>)
    requires open.Some? ==> open.value != []
    ensures closed == ClosedSpans(spans, open) && marked == ClosedMarks(spans, rowSpans, open)
  {
    closed, marked := spans, rowSpans;
    if open.None? {
      return;
    }
    for i := 0 to |open.value|
      invariant marked == rowSpans + Repeated(Some(|spans|), i)
    {
      assert Repeated(Some(|spans|), i + 1) == Repeated(Some(|spans|), i) + [Some(|spans|)];
      marked := marked + [Some(|spans|)];
    }
    closed := spans + [OpenSpan(open.value)];
  }

  // -- what the walk keeps of the log ----------------------------------------------------------

  predicate Inside(rows: seq<TraceRow>) {
    rows != [] && match rows[|rows| - 1].kind
                  case NodeEntered => true
                  case NodeExited => false
                  case _ => Inside(rows[..|rows| - 1])
  }

  /** An exit with no execution to close. */
  predicate Orphan(rows: seq<TraceRow>, i: nat)
    requires i < |rows|
  {
    rows[i].kind == NodeExited && !Inside(rows[..i])
  }

  function WithoutOrphans(rows: seq<TraceRow>): seq<TraceRow> {
    if rows == [] then []
    else WithoutOrphans(rows[..|rows| - 1]) + if Orphan(rows, |rows| - 1) then [] else [rows[|rows| - 1]]
  }

  function Held(w: Walk): seq<TraceRow> { Flat(w.pieces) + w.open }

  lemma ClosedHolds(w: Walk)
    ensures Flat(Closed(w)) == Held(w)
  {
    FlatPush(w.pieces, Execution(w.open));
  }

  lemma WalkOnHolds(w: Walk, row: TraceRow)
    ensures Held(WalkOn(w, row)) == Held(w) + if row.kind == NodeExited && w.open == [] then [] else [row]
  {
    if row.kind == NodeEntered {
      ClosedHolds(w);
    } else if row.kind == NodeExited {
      FlatPush(w.pieces, Execution(w.open + [row]));
      Assoc(Flat(w.pieces), w.open, [row]);
    } else if w.open == [] {
      FlatPush(w.pieces, Card(row));
      FlatPush(w.pieces, Loose(row));
    } else {
      Assoc(Flat(w.pieces), w.open, [row]);
    }
  }

  lemma {:induction false} PiecesHoldTheLog(rows: seq<TraceRow>)
    ensures Held(WalkOf(rows)) == WithoutOrphans(rows)
    ensures Flat(Pieces(rows)) == WithoutOrphans(rows)
    ensures WalkOf(rows).open != [] <==> Inside(rows)
  {
    ClosedHolds(WalkOf(rows));
    if rows != [] {
      var before := rows[..|rows| - 1];
      PiecesHoldTheLog(before);
      WalkOnHolds(WalkOf(before), rows[|rows| - 1]);
    }
  }

  lemma FlatPush(pieces: seq<Piece>, piece: Piece)
    ensures Flat(pieces + [piece]) == Flat(pieces) + RowsIn(piece)
  {
    assert (pieces + [piece])[..|pieces|] == pieces;
  }

  lemma {:induction false} MarksMatchRows(pieces: seq<Piece>)
    requires Solid(pieces)
    ensures |Marks(pieces)| == |Flat(pieces)|
  {
    if pieces != [] {
      MarksMatchRows(pieces[..|pieces| - 1]);
    }
  }

  lemma {:induction false} OrphansAreDropped(rows: seq<TraceRow>)
    ensures |WithoutOrphans(rows)| <= |rows|
    ensures |WithoutOrphans(rows)| == |rows| <==> forall i :: 0 <= i < |rows| ==> !Orphan(rows, i)
    ensures |WithoutOrphans(rows)| == |rows| ==> WithoutOrphans(rows) == rows
  {
    if rows != [] {
      OrphansAreDropped(rows[..|rows| - 1]);
      SameOrphans(rows);
    }
  }

  lemma SameOrphans(rows: seq<TraceRow>)
    requires rows != []
    ensures var before := rows[..|rows| - 1];
            (forall i :: 0 <= i < |rows| ==> !Orphan(rows, i))
            <==> (forall i :: 0 <= i < |before| ==> !Orphan(before, i)) && !Orphan(rows, |rows| - 1)
  {
    var before := rows[..|rows| - 1];
    forall i | 0 <= i < |before| ensures Orphan(rows, i) <==> Orphan(before, i) {
      assert rows[..i] == before[..i];
    }
  }

  /** One mark for each row, exactly when every exit has an entry to close. */
  lemma OneMarkPerRow(rows: seq<TraceRow>)
    ensures Solid(Pieces(rows))
    ensures |Marks(Pieces(rows))| == |rows| <==> forall i :: 0 <= i < |rows| ==> !Orphan(rows, i)
    ensures |Marks(Pieces(rows))| == |rows| ==> Flat(Pieces(rows)) == rows
  {
    WalkIsSolid(rows);
    PiecesHoldTheLog(rows);
    MarksMatchRows(Pieces(rows));
    OrphansAreDropped(rows);
  }

  /** Span k is the stretch of rows that its marks cover: nothing is between them. */
  ghost predicate Covers(rows: seq<TraceRow>, marks: seq<Option<nat>>, spans: seq<Span>, k: nat, from: nat)
    requires k < |spans| && |marks| == |rows|
  {
    && from + |spans[k].rows| <= |rows|
    && rows[from..from + |spans[k].rows|] == spans[k].rows
    && forall i :: 0 <= i < |marks| ==> (marks[i] == Some(k) <==> from <= i < from + |spans[k].rows|)
  }

  lemma {:induction false} MarksStayBelow(pieces: seq<Piece>)
    requires Solid(pieces)
    ensures forall i :: 0 <= i < |Marks(pieces)| && Marks(pieces)[i].Some? ==> Marks(pieces)[i].value < |SpansOf(pieces)|
  {
    if pieces != [] {
      MarksStayBelow(pieces[..|pieces| - 1]);
    }
  }

  lemma LastSpanIsContiguous(pieces: seq<Piece>, piece: Piece)
    requires Solid(pieces) && RowsIn(piece) != [] && !piece.Loose?
    ensures Solid(pieces + [piece])
    ensures |Marks(pieces + [piece])| == |Flat(pieces + [piece])|
    ensures |SpansOf(pieces + [piece])| == |SpansOf(pieces)| + 1
    ensures Covers(Flat(pieces + [piece]), Marks(pieces + [piece]), SpansOf(pieces + [piece]), |SpansOf(pieces)|, |Flat(pieces)|)
  {
    AnotherPiece(pieces, piece);
    MarksMatchRows(pieces);
    MarksMatchRows(pieces + [piece]);
    MarksStayBelow(pieces);
  }

  /** The rows of one more piece are marked with its own span or with none. */
  lemma LaterMarks(pieces: seq<Piece>, piece: Piece, k: nat)
    requires Solid(pieces) && RowsIn(piece) != [] && k < |SpansOf(pieces)|
    ensures |Marks(pieces)| <= |Marks(pieces + [piece])|
    ensures forall i :: 0 <= i < |Marks(pieces)| ==> Marks(pieces + [piece])[i] == Marks(pieces)[i]
    ensures forall i :: |Marks(pieces)| <= i < |Marks(pieces + [piece])| ==> Marks(pieces + [piece])[i] != Some(k)
  {
    AnotherPiece(pieces, piece);
    var made := if piece.Loose? then [None] else Repeated(Some(|SpansOf(pieces)|), |RowsIn(piece)|);
    assert forall i :: 0 <= i < |made| ==> made[i] != Some(k);
    assert Marks(pieces + [piece]) == Marks(pieces) + made;
  }

  lemma EarlierSpanIsContiguous(pieces: seq<Piece>, piece: Piece, k: nat, from: nat)
    requires Solid(pieces) && RowsIn(piece) != [] && k < |SpansOf(pieces)|
    requires |Marks(pieces)| == |Flat(pieces)| && Covers(Flat(pieces), Marks(pieces), SpansOf(pieces), k, from)
    ensures Solid(pieces + [piece])
    ensures |Marks(pieces + [piece])| == |Flat(pieces + [piece])|
    ensures k < |SpansOf(pieces + [piece])|
    ensures Covers(Flat(pieces + [piece]), Marks(pieces + [piece]), SpansOf(pieces + [piece]), k, from)
  {
    AnotherPiece(pieces, piece);
    MarksMatchRows(pieces + [piece]);
    LaterMarks(pieces, piece, k);
    StillCovers(Flat(pieces), RowsIn(piece), Marks(pieces), Marks(pieces + [piece]), SpansOf(pieces),
                SpansOf(pieces + [piece]), k, from);
  }

  /** A stretch stays one when rows come after it that are marked otherwise. */
  lemma StillCovers(rows: seq<TraceRow>, more: seq<TraceRow>, marks: seq<Option<nat>>, longer: seq<Option<nat>>,
                    spans: seq<Span>, others: seq<Span>, k: nat, from: nat)
    requires k < |spans| && k < |others| && others[k] == spans[k] && |marks| == |rows| && |longer| == |rows + more|
    requires Covers(rows, marks, spans, k, from)
    requires forall i :: 0 <= i < |marks| ==> longer[i] == marks[i]
    requires forall i :: |marks| <= i < |longer| ==> longer[i] != Some(k)
    ensures Covers(rows + more, longer, others, k, from)
  {
    var n := |spans[k].rows|;
    assert (rows + more)[from..from + n] == rows[from..from + n];
  }

  lemma {:induction false} SpanOfPiecesIsContiguous(pieces: seq<Piece>, k: nat)
    requires Solid(pieces) && k < |SpansOf(pieces)|
    ensures |Marks(pieces)| == |Flat(pieces)|
    ensures exists from: nat :: Covers(Flat(pieces), Marks(pieces), SpansOf(pieces), k, from)
  {
    MarksMatchRows(pieces);
    var before := pieces[..|pieces| - 1];
    var last := pieces[|pieces| - 1];
    assert pieces == before + [last];
    MarksMatchRows(before);
    if k < |SpansOf(before)| {
      SpanOfPiecesIsContiguous(before, k);
      var from: nat :| Covers(Flat(before), Marks(before), SpansOf(before), k, from);
      EarlierSpanIsContiguous(before, last, k, from);
    } else {
      LastSpanIsContiguous(before, last);
    }
  }

  /** In a log without orphan exits, every span is one unbroken stretch of it. */
  lemma SpansAreContiguous(rows: seq<TraceRow>, k: nat)
    requires forall i :: 0 <= i < |rows| ==> !Orphan(rows, i)
    requires Solid(Pieces(rows)) && k < |SpansOf(Pieces(rows))|
    ensures |Marks(Pieces(rows))| == |rows|
    ensures exists from: nat :: Covers(rows, Marks(Pieces(rows)), SpansOf(Pieces(rows)), k, from)
  {
    OneMarkPerRow(rows);
    SpanOfPiecesIsContiguous(Pieces(rows), k);
  }

  // -- one step per execution ---------------------------------------------------------------------

  function Named(spans: seq<Span>): nat {
    if spans == [] then 0 else Named(spans[..|spans| - 1]) + if spans[|spans| - 1].nodeName.Some? then 1 else 0
  }

  function Entered(rows: seq<TraceRow>): nat {
    if rows == [] then 0 else Entered(rows[..|rows| - 1]) + if rows[|rows| - 1].kind == NodeEntered then 1 else 0
  }

  lemma NamedPush(spans: seq<Span>, span: Span)
    ensures Named(spans + [span]) == Named(spans) + if span.nodeName.Some? then 1 else 0
  {
    assert (spans + [span])[..|spans|] == spans;
  }

  lemma NamedByPiece(pieces: seq<Piece>, piece: Piece)
    requires Solid(pieces) && RowsIn(piece) != []
    ensures Solid(pieces + [piece])
    ensures Named(SpansOf(pieces + [piece])) == Named(SpansOf(pieces)) + if piece.Execution? then 1 else 0
  {
    AnotherPiece(pieces, piece);
    if !piece.Loose? {
      NamedPush(SpansOf(pieces), SpanOf(piece));
    } else {
      assert SpansOf(pieces) + [] == SpansOf(pieces);
    }
  }

  /** The named spans so far, the open one counted. */
  function Begun(w: Walk): nat
    requires Solid(w.pieces)
  {
    Named(SpansOf(w.pieces)) + if w.open == [] then 0 else 1
  }

  lemma ClosedCounts(w: Walk)
    requires Solid(w.pieces)
    ensures Solid(Closed(w)) && Named(SpansOf(Closed(w))) == Begun(w)
  {
    if w.open != [] {
      NamedByPiece(w.pieces, Execution(w.open));
    }
  }

  lemma WalkOnCounts(w: Walk, row: TraceRow)
    requires Solid(w.pieces)
    ensures Solid(WalkOn(w, row).pieces)
    ensures Begun(WalkOn(w, row)) == Begun(w) + if row.kind == NodeEntered then 1 else 0
  {
    if row.kind == NodeEntered {
      ClosedCounts(w);
    } else if row.kind == NodeExited {
      ExitCounts(w, row);
    } else if w.open == [] && row.node in ENGINE_CARD_NODES {
      NamedByPiece(w.pieces, Card(row));
    } else if w.open == [] {
      NamedByPiece(w.pieces, Loose(row));
    }
  }

  lemma ExitCounts(w: Walk, row: TraceRow)
    requires Solid(w.pieces) && row.kind == NodeExited
    ensures Solid(WalkOn(w, row).pieces) && Begun(WalkOn(w, row)) == Begun(w)
  {
    if w.open != [] {
      NamedByPiece(w.pieces, Execution(w.open + [row]));
    }
  }

  /** As many named spans as entered rows, in any log. */
  lemma {:induction false} OneSpanPerEntry(rows: seq<TraceRow>)
    ensures Solid(WalkOf(rows).pieces) && Begun(WalkOf(rows)) == Entered(rows)
    ensures Solid(Pieces(rows)) && Named(SpansOf(Pieces(rows))) == Entered(rows)
  {
    if rows != [] {
      OneSpanPerEntry(rows[..|rows| - 1]);
      WalkOnCounts(WalkOf(rows[..|rows| - 1]), rows[|rows| - 1]);
    }
    ClosedCounts(WalkOf(rows));
  }

  /** The rows as filed: an event and its detail. */
  predicate Filed(rows: seq<TraceRow>, events: seq<Event>) {
    |rows| == |events| && forall i :: 0 <= i < |rows| ==> events[i] == Event(rows[i].node, rows[i].kind)
  }

  lemma {:induction false} BalancedLogsHaveNoOrphans(rows: seq<TraceRow>, events: seq<Event>)
    requires Filed(rows, events) && NestingOf(events) != Unbalanced
    ensures forall i :: 0 <= i < |rows| ==> !Orphan(rows, i)
    ensures Inside(rows) <==> NestingOf(events) == Within
    ensures Entered(rows) == Entries(events)
  {
    if rows != [] {
      var before, start := rows[..|rows| - 1], events[..|events| - 1];
      BalancedLogsHaveNoOrphans(before, start);
      forall i | 0 <= i < |rows| ensures !Orphan(rows, i) {
        if i < |before| {
          assert rows[..i] == before[..i];
          assert !Orphan(before, i);
        }
      }
    }
  }

  // -- the timeline ----------------------------------------------------------------------------------

  datatype Entry = RowEntry(row: TraceRow) | StepEntry(span: nat)

  /** Each row, and after it the step of its span when the next row is not of that span. */
  function Interleaved(rows: seq<TraceRow>, marks: seq<Option<nat>>): seq<Entry>
    decreases |rows|
  {
    if rows == [] then []
    else if marks == [] then [RowEntry(rows[0])] + Interleaved(rows[1..], [])
    else
      [RowEntry(rows[0])]
      + (if marks[0].Some? && (|marks| == 1 || marks[1] != marks[0]) then [StepEntry(marks[0].value)] else [])
      + Interleaved(rows[1..], marks[1..])
  }

  function From(marks: seq<Option<nat>>, i: nat): seq<Option<nat>> {
    if i <= |marks| then marks[i..] else []
  }

  predicate Closes(marks: seq<Option<nat>>, i: nat) {
    i < |marks| && marks[i].Some? && (i + 1 == |marks| || marks[i + 1] != marks[i])
  }

  /** What one row adds to the timeline. */
  function Added(rows: seq<TraceRow>, marks: seq<Option<nat>>, i: nat): seq<Entry>
    requires i < |rows|
  {
    if Closes(marks, i) then [RowEntry(rows[i]), StepEntry(marks[i].value)] else [RowEntry(rows[i])]
  }

  lemma OneRowOn(rows: seq<TraceRow>, marks: seq<Option<nat>>, i: nat)
    requires i < |rows|
    ensures Interleaved(rows[i..], From(marks, i)) == Added(rows, marks, i) + Interleaved(rows[i + 1..], From(marks, i + 1))
  {
    assert rows[i..][1..] == rows[i + 1..];
    if i < |marks| {
      assert marks[i..][1..] == marks[i + 1..];
      if Closes(marks, i) {
        assert [RowEntry(rows[i])] + [StepEntry(marks[i].value)] == Added(rows, marks, i);
      } else {
        assert [RowEntry(rows[i])] + [] == Added(rows, marks, i);
      }
    }
  }

  lemma AddedGrows(timeline: seq<Entry>, rows: seq<TraceRow>, marks: seq<Option<nat>>, i: nat)
    requires i < |rows|
    ensures timeline + Interleaved(rows[i..], From(marks, i))
         == (timeline + Added(rows, marks, i)) + Interleaved(rows[i + 1..], From(marks, i + 1))
  {
    OneRowOn(rows, marks, i);
    Assoc(timeline, Added(rows, marks, i), Interleaved(rows[i + 1..], From(marks, i + 1)));
  }

  method Timeline(rows: seq<TraceRow>, rowSpans: seq<Option<nat>>) returns (timeline: seq<Entry>)
    requires |rowSpans| <= |rows|
    ensures timeline == Interleaved(rows, rowSpans)
  {
    timeline := [];
    assert rows[0..] == rows && From(rowSpans, 0) == rowSpans;
    for i := 0 to |rows|
      invariant timeline + Interleaved(rows[i..], From(rowSpans, i)) == Interleaved(rows, rowSpans)
    {
      AddedGrows(timeline, rows, rowSpans, i);
      ghost var before := timeline;
      timeline := timeline + [RowEntry(rows[i])];
      if Closes(rowSpans, i) {
        timeline := timeline + [StepEntry(rowSpans[i].value)];
      }
      assert timeline == before + Added(rows, rowSpans, i);
    }
  }

  function RowEntries(rows: seq<TraceRow>): (r: seq<Entry>)
    ensures |r| == |rows|
  {
    seq(|rows|, i requires 0 <= i < |rows| => RowEntry(rows[i]))
  }

  /** The pieces in order: an execution or a card with the step that closes it right after
      its rows, a loose row on its own; steps numbered from `k`. */
  function Laid(pieces: seq<Piece>, k: nat): seq<Entry>
    decreases |pieces|
  {
    if pieces == [] then []
    else RowEntries(RowsIn(pieces[0]))
         + (if pieces[0].Loose? then [] else [StepEntry(k)])
         + Laid(pieces[1..], if pieces[0].Loose? then k else k + 1)
  }

  /** The marks read from the front. */
  function MarksFrom(pieces: seq<Piece>, k: nat): seq<Option<nat>>
    decreases |pieces|
  {
    if pieces == [] then []
    else MarksOf(pieces[0], k) + MarksFrom(pieces[1..], if pieces[0].Loose? then k else k + 1)
  }

  function FlatFrom(pieces: seq<Piece>): seq<TraceRow> {
    if pieces == [] then [] else RowsIn(pieces[0]) + FlatFrom(pieces[1..])
  }

  function Steps(pieces: seq<Piece>): nat {
    if pieces == [] then 0 else Steps(pieces[1..]) + if pieces[0].Loose? then 0 else 1
  }

  lemma {:induction false} FlatFrontAndBack(pieces: seq<Piece>, piece: Piece)
    ensures FlatFrom(pieces + [piece]) == FlatFrom(pieces) + RowsIn(piece)
    ensures Steps(pieces + [piece]) == Steps(pieces) + if piece.Loose? then 0 else 1
    decreases |pieces|
  {
    if pieces == [] {
      assert pieces + [piece] == [piece];
    } else {
      assert (pieces + [piece])[1..] == pieces[1..] + [piece];
      FlatFrontAndBack(pieces[1..], piece);
      Assoc(RowsIn(pieces[0]), FlatFrom(pieces[1..]), RowsIn(piece));
    }
  }

  function MarksOf(piece: Piece, k: nat): seq<Option<nat>> {
    if piece.Loose? then [None] else Repeated(Some(k), |RowsIn(piece)|)
  }

  lemma {:induction false} FrontAndBack(pieces: seq<Piece>, piece: Piece, k: nat)
    ensures MarksFrom(pieces + [piece], k) == MarksFrom(pieces, k) + MarksOf(piece, k + Steps(pieces))
    decreases |pieces|
  {
    if pieces == [] {
      assert pieces + [piece] == [piece];
    } else {
      var next := if pieces[0].Loose? then k else k + 1;
      assert (pieces + [piece])[1..] == pieces[1..] + [piece];
      FrontAndBack(pieces[1..], piece, next);
      Assoc(MarksOf(pieces[0], k), MarksFrom(pieces[1..], next), MarksOf(piece, k + Steps(pieces)));
    }
  }

  lemma {:induction false} ReadEitherWay(pieces: seq<Piece>)
    requires Solid(pieces)
    ensures FlatFrom(pieces) == Flat(pieces) && MarksFrom(pieces, 0) == Marks(pieces) && Steps(pieces) == |SpansOf(pieces)|
  {
    if pieces != [] {
      var before := pieces[..|pieces| - 1];
      assert pieces == before + [pieces[|pieces| - 1]];
      ReadEitherWay(before);
      FlatFrontAndBack(before, pieces[|pieces| - 1]);
      FrontAndBack(before, pieces[|pieces| - 1], 0);
    }
  }

  lemma {:induction false} BlockIsLaid(block: seq<TraceRow>, k: nat, rows: seq<TraceRow>, marks: seq<Option<nat>>)
    requires block != [] && (marks != [] ==> marks[0] != Some(k))
    ensures Interleaved(block + rows, Repeated(Some(k), |block|) + marks)
         == RowEntries(block) + [StepEntry(k)] + Interleaved(rows, marks)
    decreases |block|
  {
    var ahead := Repeated(Some(k), |block|) + marks;
    assert (block + rows)[1..] == block[1..] + rows;
    assert ahead[1..] == Repeated(Some(k), |block| - 1) + marks;
    if |block| == 1 {
      assert block[1..] + rows == rows;
      assert ahead[1..] == marks;
      assert RowEntries(block) == [RowEntry(block[0])];
    } else {
      BlockIsLaid(block[1..], k, rows, marks);
      assert RowEntries(block) == [RowEntry(block[0])] + RowEntries(block[1..]);
    }
  }

  lemma MarksStartAbove(pieces: seq<Piece>, k: nat, below: nat)
    requires Solid(pieces) && below < k
    ensures MarksFrom(pieces, k) != [] ==> MarksFrom(pieces, k)[0] != Some(below)
  {
  }

  lemma {:induction false} InterleavedIsLaid(pieces: seq<Piece>, k: nat)
    requires Solid(pieces)
    ensures Interleaved(FlatFrom(pieces), MarksFrom(pieces, k)) == Laid(pieces, k)
    decreases |pieces|
  {
    if pieces != [] {
      var rest := pieces[1..];
      match pieces[0]
      case Loose(row) =>
        InterleavedIsLaid(rest, k);
        assert (RowsIn(pieces[0]) + FlatFrom(rest))[1..] == FlatFrom(rest);
        assert ([None] + MarksFrom(rest, k))[1..] == MarksFrom(rest, k);
        assert RowEntries([row]) == [RowEntry(row)];
      case _ =>
        InterleavedIsLaid(rest, k + 1);
        MarksStartAbove(rest, k + 1, k);
        BlockIsLaid(RowsIn(pieces[0]), k, FlatFrom(rest), MarksFrom(rest, k + 1));
    }
  }

  /** The timeline of a log without orphan exits is the log itself, every row in order,
      with each span's step once, right after its last row. */
  lemma TimelineKeepsTheLog(rows: seq<TraceRow>)
    requires forall i :: 0 <= i < |rows| ==> !Orphan(rows, i)
    ensures Solid(Pieces(rows))
    ensures Interleaved(rows, Marks(Pieces(rows))) == Laid(Pieces(rows), 0)
    ensures OnlyRows(Laid(Pieces(rows), 0)) == rows
    ensures OnlySteps(Laid(Pieces(rows), 0)) == UpFrom(0, |SpansOf(Pieces(rows))|)
  {
    OneMarkPerRow(rows);
    ReadEitherWay(Pieces(rows));
    InterleavedIsLaid(Pieces(rows), 0);
    LaidInOrder(Pieces(rows), 0);
  }

  function OnlyRows(timeline: seq<Entry>): seq<TraceRow> {
    if timeline == [] then [] else (if timeline[0].RowEntry? then [timeline[0].row] else []) + OnlyRows(timeline[1..])
  }

  function OnlySteps(timeline: seq<Entry>): seq<nat> {
    if timeline == [] then [] else (if timeline[0].StepEntry? then [timeline[0].span] else []) + OnlySteps(timeline[1..])
  }

  lemma {:induction false} OnlyRowsOver(some: seq<Entry>, more: seq<Entry>)
    ensures OnlyRows(some + more) == OnlyRows(some) + OnlyRows(more)
    decreases |some|
  {
    if some == [] {
      assert some + more == more;
    } else {
      assert (some + more)[1..] == some[1..] + more;
      OnlyRowsOver(some[1..], more);
      Assoc(if some[0].RowEntry? then [some[0].row] else [], OnlyRows(some[1..]), OnlyRows(more));
    }
  }

  lemma {:induction false} OnlyStepsOver(some: seq<Entry>, more: seq<Entry>)
    ensures OnlySteps(some + more) == OnlySteps(some) + OnlySteps(more)
    decreases |some|
  {
    if some == [] {
      assert some + more == more;
    } else {
      assert (some + more)[1..] == some[1..] + more;
      OnlyStepsOver(some[1..], more);
      Assoc(if some[0].StepEntry? then [some[0].span] else [], OnlySteps(some[1..]), OnlySteps(more));
    }
  }

  lemma {:induction false} OnlyOfRows(rows: seq<TraceRow>)
    ensures OnlyRows(RowEntries(rows)) == rows && OnlySteps(RowEntries(rows)) == []
    decreases |rows|
  {
    if rows != [] {
      assert RowEntries(rows)[1..] == RowEntries(rows[1..]);
      OnlyOfRows(rows[1..]);
    }
  }

  lemma LaidPiece(piece: Piece, k: nat, more: seq<Entry>)
    ensures var entries := RowEntries(RowsIn(piece)) + (if piece.Loose? then [] else [StepEntry(k)]) + more;
            && OnlyRows(entries) == RowsIn(piece) + OnlyRows(more)
            && OnlySteps(entries) == (if piece.Loose? then [] else [k]) + OnlySteps(more)
  {
    var rows := RowEntries(RowsIn(piece));
    var step := if piece.Loose? then [] else [StepEntry(k)];
    OnlyOfRows(RowsIn(piece));
    OnlyRowsOver(rows + step, more);
    OnlyRowsOver(rows, step);
    OnlyStepsOver(rows + step, more);
    OnlyStepsOver(rows, step);
  }

  function UpFrom(k: nat, n: nat): (r: seq<nat>)
    ensures |r| == n && forall i :: 0 <= i < n ==> r[i] == k + i
  {
    seq(n, i => k + i)
  }

  lemma UpFromOne(k: nat, n: nat)
    ensures [k] + UpFrom(k + 1, n) == UpFrom(k, n + 1) && [] + UpFrom(k, n) == UpFrom(k, n)
  {
  }

  lemma {:induction false} LaidInOrder(pieces: seq<Piece>, k: nat)
    ensures OnlyRows(Laid(pieces, k)) == FlatFrom(pieces)
    ensures OnlySteps(Laid(pieces, k)) == UpFrom(k, Steps(pieces))
    decreases |pieces|
  {
    if pieces != [] {
      var next := if pieces[0].Loose? then k else k + 1;
      LaidInOrder(pieces[1..], next);
      LaidPiece(pieces[0], k, Laid(pieces[1..], next));
      UpFromOne(k, Steps(pieces[1..]));
    }
  }

  // -- a turn that the engine filed --------------------------------------------------------------

  /** Whatever the ports did and however often the turn paused, its filed log, with the
      rows that consolidation added, is rebuilt as one named span per step the engine
      counted, one mark per row, and a timeline that keeps every row in order. */
  lemma FiledTurnIsRebuilt(p: Ports, cfg: Config, s: State, segments: seq<Segment>, learned: seq<Event>, rows: seq<TraceRow>)
    requires Conforms(p) && AllConform(segments) && Fresh(s) && InnerRows(learned)
    requires Filed(rows, Turn(p, cfg, s, segments).state.events + learned)
    ensures Solid(Pieces(rows))
    ensures Named(SpansOf(Pieces(rows))) == Turn(p, cfg, s, segments).state.steps
    ensures |Marks(Pieces(rows))| == |rows|
    ensures OnlyRows(Interleaved(rows, Marks(Pieces(rows)))) == rows
    ensures OnlySteps(Interleaved(rows, Marks(Pieces(rows)))) == UpFrom(0, |SpansOf(Pieces(rows))|)
  {
    TurnStaysInBounds(p, cfg, s, segments);
    var events := Turn(p, cfg, s, segments).state.events;
    ExtendsBy(events, learned);
    NestingInner(events, events + learned);
    BalancedLogsHaveNoOrphans(rows, events + learned);
    OneSpanPerEntry(rows);
    OneMarkPerRow(rows);
    TimelineKeepsTheLog(rows);
  }
}
