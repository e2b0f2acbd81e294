/**
 Following `older` cursors from the newest page while the transcript grows.  Growth appends turns and may
 rewrite what earlier turns hold: adjacent assistant messages merge into the last turn and tool output is
 folded into the turn that called the tool.  What stays is each turn's id.
 */
module PagingRuns {
  import opened Prelude
  import opened Paging

  datatype End = Finished | OutOfFetches | Stopped(why: Refusal)

  /** Pages, newest first, and why there are no more. */
  datatype Walk = Walk(pages: seq<seq<Turn>>, end: End)

  /** One fetch per view; each answer's cursor is the next request's `before`. */
  function Follow(views: seq<View>, before: Option<string>): Walk
    decreases |views|
  {
    if views == [] then Walk([], OutOfFetches)
    else match Fetch(views[0], before, None)
      case Refused(why) => Walk([], Stopped(why))
      case Page(start, cut, older) =>
        var page := views[0].turns[start..cut];
        if older.None? then Walk([page], Finished)
        else var w := Follow(views[1..], older); Walk([page] + w.pages, w.end)
  }

  /** The pages as the chat shows them: older ones in front. */
  function Joined(pages: seq<seq<Turn>>): seq<Turn> {
    if pages == [] then [] else Joined(pages[1..]) + pages[0]
  }

  /** What a reader of turns looks at in each of them. */
  function Images<X>(t: seq<Turn>, f: Turn -> X): (r: seq<X>)
    ensures |r| == |t| && forall i :: 0 <= i < |t| ==> r[i] == f(t[i])
  {
    seq(|t|, i requires 0 <= i < |t| => f(t[i]))
  }

  type Ids = seq<Option<string>>

  const IdOf: Turn -> Option<string> := (t: Turn) => t.id

  function IdsOf(t: seq<Turn>): Ids { Images(t, IdOf) }

  predicate Sane(v: View) {
    && !v.missing && ':' !in v.session && ':' !in v.generation
    && (forall i :: 0 <= i < |v.turns| && v.turns[i].id.Some? ==> ValidRef(v.turns[i].id.value))
    && (forall i, j :: 0 <= i < j < |v.turns| && v.turns[i].id.Some? ==> v.turns[i].id != v.turns[j].id)
  }

  /** One session whose transcript only ever gains turns at its end; f is kept of the turns it has. */
  predicate Growing<X(==)>(views: seq<View>, f: Turn -> X) {
    && (forall i :: 0 <= i < |views| ==> Sane(views[i]))
    && (forall i, j :: 0 <= i <= j < |views| ==>
          && IdsOf(views[i].turns) <= IdsOf(views[j].turns)
          && Images(views[i].turns, f) <= Images(views[j].turns, f)
          && views[i].session == views[j].session)
  }

  lemma PositionIs(turns: seq<Turn>, p: nat)
    requires p < |turns| && turns[p].id.Some?
    requires forall i, j :: 0 <= i < j < |turns| && turns[i].id.Some? ==> turns[i].id != turns[j].id
    ensures Position(turns, turns[p].id.value) == p
  {
    assert Position(turns, turns[p].id.value) <= p;
  }

  // ---------------------------------------------------------------- one page

  /** The cursor names turn p of the transcript. */
  predicate Names(ids: Ids, session: string, before: string, p: nat) {
    && 0 < p < |ids| && ids[p].Some?
    && Decode(before, session).Some? && Decode(before, session).value.message == ids[p].value
  }

  /** A fetch before turn p serves the turns just below p, and its cursor is null iff the page starts at the
      beginning or opens on a turn without an id. */
  lemma BeforePage(v: View, before: string, p: nat)
    requires Sane(v) && Names(IdsOf(v.turns), v.session, before, p)
    ensures var r := Fetch(v, Some(before), None);
      && r.Page? && r.cut == p && r.start == BackFrom(p)
      && (r.older.None? <==> r.start == 0 || v.turns[r.start].id.None?)
      && (r.older.Some? ==> Names(IdsOf(v.turns), v.session, r.older.value, r.start))
  {
    PositionIs(v.turns, p);
    CursorNames(v, BackFrom(p));
  }

  lemma CursorNames(v: View, start: nat)
    requires Sane(v)
    ensures 0 < start < |v.turns| && v.turns[start].id.Some? ==>
            Names(IdsOf(v.turns), v.session, Encode(Cursor(v.session, v.generation, v.turns[start].id.value)), start)
  {
    if 0 < start < |v.turns| && v.turns[start].id.Some? {
      DecodeEncodeIff(Cursor(v.session, v.generation, v.turns[start].id.value));
    }
  }

  lemma NewestPage(v: View)
    requires Sane(v)
    ensures var r := Fetch(v, None, None);
      && r.Page? && r.cut == |v.turns| && r.start == BackFrom(|v.turns|)
      && (r.older.None? <==> r.start == 0 || v.turns[r.start].id.None?)
      && (r.older.Some? ==> Names(IdsOf(v.turns), v.session, r.older.value, r.start))
  {
    CursorNames(v, BackFrom(|v.turns|));
  }

  /** A poll that holds an anchor gets exactly the turns from the later of the anchor and the newest page's own
      start, to the end. */
  lemma FromPage(v: View, held: nat, from: string)
    requires Sane(v) && held < |v.turns| && v.turns[held].id.Some?
    requires Decode(from, v.session).Some? && Decode(from, v.session).value.message == v.turns[held].id.value
    ensures var r := Fetch(v, None, Some(from));
      && r.Page? && r.cut == |v.turns|
      && r.start == (if held + PAGE_TURNS >= |v.turns| then held else |v.turns| - PAGE_TURNS)
  {
    PositionIs(v.turns, held);
  }

  // ---------------------------------------------------------------- the walk

  /** Every page boundary below p, a hundred turns apart, falls on a turn with an id. */
  predicate Openers(ids: Ids, p: nat)
    requires p <= |ids|
    decreases p
  {
    p <= PAGE_TURNS || (ids[p - PAGE_TURNS].Some? && Openers(ids, p - PAGE_TURNS))
  }

  /** A walk that has covered t[q..p], as f sees it, and how it may have ended there. */
  predicate Covers<X(==)>(ids: Ids, t: seq<X>, f: Turn -> X, w: Walk, fetches: nat, q: nat, p: nat) {
    && q <= p <= |t| == |ids|
    && Images(Joined(w.pages), f) == t[q..p]
    && (w.end.Finished? ==> (q == 0 || (q < |ids| && ids[q].None?)) && (q == 0 <==> Openers(ids, p)))
    && (w.end.OutOfFetches? ==> q > 0 && q + PAGE_TURNS * fetches == p)
    && !w.end.Stopped?
  }

  lemma LastPageCovers<X>(ids: Ids, t: seq<X>, f: Turn -> X, page: seq<Turn>, p: nat, fetches: nat)
    requires p <= |t| == |ids| && Images(page, f) == t[BackFrom(p)..p]
    requires BackFrom(p) == 0 || ids[BackFrom(p)].None?
    ensures Covers(ids, t, f, Walk([page], Finished), fetches, BackFrom(p), p)
  {
    assert [page][1..] == [] && [] + page == page;
  }

  lemma PageInFront<X>(ids: Ids, t: seq<X>, f: Turn -> X, w: Walk, fetches: nat, q: nat, page: seq<Turn>, p: nat)
    requires p <= |t| == |ids| && BackFrom(p) > 0 && ids[BackFrom(p)].Some?
    requires Covers(ids, t, f, w, fetches, q, BackFrom(p)) && Images(page, f) == t[BackFrom(p)..p]
    ensures Covers(ids, t, f, Walk([page] + w.pages, w.end), fetches + 1, q, p)
  {
    var s := BackFrom(p);
    assert ([page] + w.pages)[1..] == w.pages;
    assert Images(Joined(w.pages) + page, f) == Images(Joined(w.pages), f) + Images(page, f);
    assert t[q..s] + t[s..p] == t[q..p];
  }

  predicate Extends<X(==)>(views: seq<View>, ids: Ids, t: seq<X>, f: Turn -> X, session: string) {
    forall i :: 0 <= i < |views| ==>
      && ids <= IdsOf(views[i].turns) && t <= Images(views[i].turns, f)
      && views[i].session == session && Sane(views[i])
  }

  lemma PageImages<X>(v: View, t: seq<X>, f: Turn -> X, a: nat, b: nat)
    requires t <= Images(v.turns, f) && a <= b <= |t|
    ensures Images(v.turns[a..b], f) == t[a..b]
  {
  }

  lemma {:induction false} BelowTiles<X>(views: seq<View>, ids: Ids, t: seq<X>, f: Turn -> X, session: string,
                                         before: string, p: nat)
    returns (q: nat)
    requires Extends(views, ids, t, f, session) && |t| == |ids| && Names(ids, session, before, p)
    ensures Covers(ids, t, f, Follow(views, Some(before)), |views|, q, p)
    decreases |views|
  {
    if views == [] {
      q := p;
    } else {
      var v := views[0];
      assert Names(IdsOf(v.turns), v.session, before, p);
      BeforePage(v, before, p);
      q := Rest(views, ids, t, f, session, Fetch(v, Some(before), None), p);
    }
  }

  /** The part of a walk from a page on. */
  lemma {:induction false} Rest<X>(views: seq<View>, ids: Ids, t: seq<X>, f: Turn -> X, session: string,
                                   r: Outcome, p: nat)
    returns (q: nat)
    requires views != [] && Extends(views, ids, t, f, session) && p <= |t| == |ids|
    requires r.Page? && r.start == BackFrom(p) && r.cut == p
    requires r.older.None? <==> r.start == 0 || ids[r.start].None?
    requires r.older.Some? ==> Names(ids, session, r.older.value, r.start)
    ensures var page := views[0].turns[r.start..p];
      Covers(ids, t, f, if r.older.None? then Walk([page], Finished)
                        else Walk([page] + Follow(views[1..], r.older).pages, Follow(views[1..], r.older).end),
             |views|, q, p)
    decreases |views|, 0
  {
    var page := views[0].turns[r.start..p];
    PageImages(views[0], t, f, r.start, p);
    if r.older.None? {
      q := r.start;
      LastPageCovers(ids, t, f, page, p, |views|);
    } else {
      q := BelowTiles(views[1..], ids, t, f, session, r.older.value, r.start);
      PageInFront(ids, t, f, Follow(views[1..], r.older), |views| - 1, q, page, p);
    }
  }

  /** Page tiling under growth, for anything f that growth keeps of a turn: whatever is appended between the
      fetches, the pages join up to exactly a suffix of the transcript as the first fetch saw it, with no
      gap and no repeat, and no request is refused.  The walk ends with a null cursor only at the beginning
      or on a page that opens on a turn without an id; otherwise every fetch went back a full page. */
  lemma PagesTile<X>(views: seq<View>, f: Turn -> X) returns (q: nat)
    requires Growing(views, f) && views != []
    ensures var t := views[0].turns; Covers(IdsOf(t), Images(t, f), f, Follow(views, None), |views|, q, |t|)
  {
    var v := views[0];
    NewestPage(v);
    q := Rest(views, IdsOf(v.turns), Images(v.turns, f), f, v.session, Fetch(v, None, None), |v.turns|);
  }

  /** The ids the chat ends up with are a suffix of the ids the transcript had at the first fetch. */
  lemma IdsTile(views: seq<View>) returns (q: nat)
    requires Growing(views, IdOf) && views != []
    ensures var w := Follow(views, None); var ids := IdsOf(views[0].turns);
      && q <= |ids| && IdsOf(Joined(w.pages)) == ids[q..] && !w.end.Stopped?
      && (w.end.Finished? ==> q == 0 || ids[q].None?)
      && (w.end.OutOfFetches? ==> q > 0 && q + PAGE_TURNS * |views| == |ids|)
  {
    q := PagesTile(views, IdOf);
    var ids := IdsOf(views[0].turns);
    assert ids[q..|ids|] == ids[q..];
  }

  /** Given enough fetches, the pages bring back the whole transcript iff every page boundary falls on a turn
      with an id. */
  lemma PagesCompleteIff(views: seq<View>)
    requires Growing(views, IdOf) && views != [] && PAGE_TURNS * |views| >= |views[0].turns|
    ensures var ids := IdsOf(views[0].turns);
      IdsOf(Joined(Follow(views, None).pages)) == ids <==> Openers(ids, |ids|)
  {
    var q := PagesTile(views, IdOf);
    var ids := IdsOf(views[0].turns);
    assert ids[0..|ids|] == ids;
  }

  // ---------------------------------------------------------------- a turn that cannot be reached

  function Letters(n: nat): string { if n == 0 then "" else Letters(n - 1) + "a" }

  lemma {:induction false} LettersFacts(n: nat)
    ensures |Letters(n)| == n && forall i :: 0 <= i < n ==> Letters(n)[i] == 'a'
  {
    if n > 0 { LettersFacts(n - 1); }
  }

  /** A hundred and one turns, of which the second has no id. */
  const Gapped: seq<Turn> := seq(101, i => Turn(if i == 1 then None else Some(Letters(if i < 0 then 0 else i + 1)), 0))

  const GappedView: View := View("s", "g", Gapped, false)

  lemma GappedSane()
    ensures Sane(GappedView)
  {
    forall n: nat | n <= 128 ensures |Letters(n)| == n && (n > 0 ==> ValidRef(Letters(n))) {
      LettersFacts(n);
    }
  }

  /** The newest page opens on the turn without an id and answers a null cursor: the first turn is lost, however
      often the chat asks. */
  lemma FirstTurnLost(fetches: nat)
    requires fetches >= 2
    ensures IdsOf(Joined(Follow(seq(fetches, _ => GappedView), None).pages)) != IdsOf(Gapped)
  {
    GappedSane();
    var views := seq(fetches, _ => GappedView);
    assert IdsOf(Gapped)[1].None?;
    assert !Openers(IdsOf(Gapped), 101);
    PagesCompleteIff(views);
  }
}
