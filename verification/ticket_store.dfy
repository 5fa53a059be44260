/** The JSONL ticket store of tools/ticket_storage.py. The file is a sequence
    of lines; saving appends a line, and loading folds the lines into an
    insertion-ordered dictionary in which a later line for an id replaces the
    earlier one where it stands. Deleting and compacting rewrite the file from
    the loaded dictionary. */
module TicketStore {
  import opened Common
  import opened Tickets

  /** One line of the file: blank, a record without an id, or a ticket. */
  datatype Line = Blank | Unkeyed | Entry(ticket: Ticket)

  /** The ids of a series of tickets, in order. */
  function Ids(ts: seq<Ticket>): seq<int> {
    MapSeq(ts, (t: Ticket) => t.id)
  }

  /** The position of the first ticket with this id, or -1. */
  function Position(ts: seq<Ticket>, id: int): (k: int)
    ensures -1 <= k < |ts|
    ensures k >= 0 ==> ts[k].id == id && forall j :: 0 <= j < k ==> ts[j].id != id
    ensures k == -1 <==> id !in Ids(ts)
    decreases |ts|
  {
    if |ts| == 0 then -1
    else if ts[0].id == id then 0
    else
      var k := Position(ts[1..], id);
      IdsCons(ts);
      if k == -1 then -1 else k + 1
  }

  lemma IdsCons(ts: seq<Ticket>)
    requires |ts| > 0
    ensures forall k :: k in Ids(ts) <==> k == ts[0].id || k in Ids(ts[1..])
  {
    assert Ids(ts) == [ts[0].id] + Ids(ts[1..]);
  }

  /** `tickets[id]` as an optional lookup. */
  function Find(ts: seq<Ticket>, id: int): (r: Option<Ticket>)
    ensures r.Some? <==> id in Ids(ts)
    ensures r.Some? ==> r.value in ts && r.value.id == id
  {
    var k := Position(ts, id);
    if k == -1 then None else Some(ts[k])
  }

  /** `tickets[t["id"]] = t` on an insertion-ordered dictionary: an existing
      entry is replaced where it stands, a new one goes last. */
  function Upsert(ts: seq<Ticket>, t: Ticket): seq<Ticket> {
    var k := Position(ts, t.id);
    if k == -1 then ts + [t] else ts[k := t]
  }

  /** `load_all_tickets`: the left-to-right fold of the file's lines. */
  function Load(lines: seq<Line>): (r: seq<Ticket>)
    ensures forall t :: t in r ==> Entry(t) in lines
    decreases |lines|
  {
    if |lines| == 0 then []
    else
      var acc := Load(lines[..|lines| - 1]);
      match lines[|lines| - 1]
      case Entry(t) => Upsert(acc, t)
      case _ => acc
  }

  /** The last ticket line with this id: an independent reading of the file. */
  function LastEntry(lines: seq<Line>, id: int): Option<Ticket>
    decreases |lines|
  {
    if |lines| == 0 then None
    else if lines[|lines| - 1].Entry? && lines[|lines| - 1].ticket.id == id then Some(lines[|lines| - 1].ticket)
    else LastEntry(lines[..|lines| - 1], id)
  }

  /** An upsert keeps the ids distinct, puts t under its id, leaves every other
      id alone and only appends an id it did not hold. */
  lemma {:induction false} UpsertSpec(ts: seq<Ticket>, t: Ticket)
    requires NoDup(Ids(ts))
    ensures NoDup(Ids(Upsert(ts, t)))
    ensures Ids(Upsert(ts, t)) == Ids(ts) + (if t.id in Ids(ts) then [] else [t.id])
    ensures forall k :: Find(Upsert(ts, t), k) == if k == t.id then Some(t) else Find(ts, k)
  {
    var u := Upsert(ts, t);
    var p := Position(ts, t.id);
    if p == -1 {
      assert Ids(u) == Ids(ts) + [t.id];
    } else {
      assert Ids(u) == Ids(ts);
    }
    forall k ensures Find(u, k) == if k == t.id then Some(t) else Find(ts, k) {
      if k == t.id {
        if p != -1 {
          assert Position(u, k) == p by { PositionUnique(u, k, p); }
        } else {
          assert Position(u, k) == |ts| by { PositionUnique(u, k, |ts|); }
        }
      } else if k in Ids(ts) {
        var q := Position(ts, k);
        assert u[q] == ts[q];
        PositionUnique(u, k, q);
      }
    }
  }

  /** With distinct ids, the one ticket holding an id is where Position finds it. */
  lemma PositionUnique(ts: seq<Ticket>, id: int, i: int)
    requires NoDup(Ids(ts)) && 0 <= i < |ts| && ts[i].id == id
    ensures Position(ts, id) == i
  {
    assert Ids(ts)[i] == id;
    var k := Position(ts, id);
    assert Ids(ts)[k] == Ids(ts)[i];
  }

  /** With distinct ids, a ticket of the series is what its id finds. */
  lemma FindMember(ts: seq<Ticket>, t: Ticket)
    requires NoDup(Ids(ts)) && t in ts
    ensures Find(ts, t.id) == Some(t)
  {
    var i :| 0 <= i < |ts| && ts[i] == t;
    PositionUnique(ts, t.id, i);
  }

  /** An id occurs in a series exactly when some ticket of it carries the id. */
  lemma IdsMember(ts: seq<Ticket>, k: int)
    ensures k in Ids(ts) <==> exists t :: t in ts && t.id == k
  {
    if k in Ids(ts) {
      var i :| 0 <= i < |ts| && Ids(ts)[i] == k;
      assert ts[i] in ts;
    }
  }

  /** The loaded dictionary never holds an id twice. */
  lemma {:induction false} LoadDistinct(lines: seq<Line>)
    ensures NoDup(Ids(Load(lines)))
    decreases |lines|
  {
    if |lines| > 0 {
      LoadDistinct(lines[..|lines| - 1]);
      if lines[|lines| - 1].Entry? {
        UpsertSpec(Load(lines[..|lines| - 1]), lines[|lines| - 1].ticket);
      }
    }
  }

  /** Last writer wins: the loaded ticket for an id is the one on the last
      line with that id, and an id no line holds is absent. */
  lemma {:induction false} LastWriterWins(lines: seq<Line>, id: int)
    ensures Find(Load(lines), id) == LastEntry(lines, id)
    decreases |lines|
  {
    if |lines| > 0 {
      var init := lines[..|lines| - 1];
      LastWriterWins(init, id);
      LoadDistinct(init);
      if lines[|lines| - 1].Entry? {
        UpsertSpec(Load(init), lines[|lines| - 1].ticket);
      }
    }
  }

  /** After saving t, t is what its id loads as, every other id loads as
      before, and a new id takes the last place. */
  lemma SaveThenGet(lines: seq<Line>, t: Ticket, k: int)
    ensures Find(Load(lines + [Entry(t)]), k) == if k == t.id then Some(t) else Find(Load(lines), k)
    ensures Ids(Load(lines + [Entry(t)])) == Ids(Load(lines)) + (if t.id in Ids(Load(lines)) then [] else [t.id])
  {
    assert (lines + [Entry(t)])[..|lines|] == lines;
    LoadDistinct(lines);
    UpsertSpec(Load(lines), t);
  }

  /** The file a rewrite produces: one line per ticket, in order. */
  function Rewrite(ts: seq<Ticket>): (lines: seq<Line>)
    ensures |lines| == |ts| && forall i :: 0 <= i < |ts| ==> lines[i] == Entry(ts[i])
  {
    seq(|ts|, i requires 0 <= i < |ts| => Entry(ts[i]))
  }

  /** Splitting the last ticket off a series with distinct ids. */
  lemma IdsSnoc(ts: seq<Ticket>)
    requires NoDup(Ids(ts)) && |ts| > 0
    ensures ts == ts[..|ts| - 1] + [ts[|ts| - 1]]
    ensures Ids(ts) == Ids(ts[..|ts| - 1]) + [ts[|ts| - 1].id]
    ensures NoDup(Ids(ts[..|ts| - 1])) && ts[|ts| - 1].id !in Ids(ts[..|ts| - 1])
  {
    var init := ts[..|ts| - 1];
    assert Ids(ts) == Ids(init) + [ts[|ts| - 1].id];
    forall j | 0 <= j < |init| ensures Ids(init)[j] != ts[|ts| - 1].id {
      assert Ids(init)[j] == Ids(ts)[j];
    }
  }

  /** A rewritten file loads back as the dictionary it was written from. */
  lemma {:induction false} RewriteLoads(ts: seq<Ticket>)
    requires NoDup(Ids(ts))
    ensures Load(Rewrite(ts)) == ts
    decreases |ts|
  {
    if |ts| > 0 {
      var init := ts[..|ts| - 1];
      var last := ts[|ts| - 1];
      IdsSnoc(ts);
      RewriteLoads(init);
      var lines := Rewrite(ts);
      assert lines[..|lines| - 1] == Rewrite(init);
      assert lines[|lines| - 1] == Entry(last);
      assert Load(lines) == Upsert(init, last);
      assert Position(init, last.id) == -1;
    }
  }

  /** `del tickets[id]` on the dictionary. */
  function RemoveId(ts: seq<Ticket>, id: int): (r: seq<Ticket>)
    ensures |r| <= |ts|
    ensures forall t :: t in r <==> t in ts && t.id != id
    decreases |ts|
  {
    if |ts| == 0 then []
    else RemoveId(ts[..|ts| - 1], id) + (if ts[|ts| - 1].id == id then [] else [ts[|ts| - 1]])
  }

  /** Removing an id keeps the other ids distinct. */
  lemma {:induction false} RemoveIdDistinct(ts: seq<Ticket>, id: int)
    requires NoDup(Ids(ts))
    ensures NoDup(Ids(RemoveId(ts, id)))
    decreases |ts|
  {
    if |ts| > 0 {
      var init := ts[..|ts| - 1];
      var last := ts[|ts| - 1];
      IdsSnoc(ts);
      RemoveIdDistinct(init, id);
      var ri := RemoveId(init, id);
      if last.id != id {
        assert RemoveId(ts, id) == ri + [last];
        RemoveIdAbsent(init, id, last.id);
        DistinctSnoc(ri, last);
      } else {
        assert RemoveId(ts, id) == ri + [];
      }
    }
  }

  /** Removing an id adds no id. */
  lemma RemoveIdAbsent(ts: seq<Ticket>, id: int, k: int)
    requires k !in Ids(ts)
    ensures k !in Ids(RemoveId(ts, id))
  {
    IdsMember(RemoveId(ts, id), k);
    IdsMember(ts, k);
  }

  /** A ticket with a new id keeps the ids distinct. */
  lemma DistinctSnoc(ts: seq<Ticket>, t: Ticket)
    requires NoDup(Ids(ts)) && t.id !in Ids(ts)
    ensures NoDup(Ids(ts + [t]))
  {
    assert Ids(ts + [t]) == Ids(ts) + [t.id];
    NoDupSnoc(Ids(ts), t.id);
  }

  /** Removing a present id drops exactly one entry; an absent id changes nothing. */
  lemma {:induction false} RemoveIdSize(ts: seq<Ticket>, id: int)
    requires NoDup(Ids(ts))
    ensures id in Ids(ts) ==> |RemoveId(ts, id)| == |ts| - 1
    ensures id !in Ids(ts) ==> RemoveId(ts, id) == ts
    decreases |ts|
  {
    if |ts| > 0 {
      var init := ts[..|ts| - 1];
      assert Ids(init) == Ids(ts)[..|ts| - 1];
      assert Ids(ts) == Ids(init) + [ts[|ts| - 1].id];
      assert ts == init + [ts[|ts| - 1]];
      RemoveIdSize(init, id);
    }
  }

  /** Removing an id leaves it absent, drops one entry when it was present,
      and every other id finds what it found before. */
  lemma RemoveIdSpec(ts: seq<Ticket>, id: int)
    requires NoDup(Ids(ts))
    ensures NoDup(Ids(RemoveId(ts, id)))
    ensures id !in Ids(RemoveId(ts, id))
    ensures id in Ids(ts) ==> |RemoveId(ts, id)| == |ts| - 1
    ensures id !in Ids(ts) ==> RemoveId(ts, id) == ts
    ensures forall k :: k != id ==> Find(RemoveId(ts, id), k) == Find(ts, k)
  {
    var r := RemoveId(ts, id);
    RemoveIdDistinct(ts, id);
    RemoveIdSize(ts, id);
    IdsMember(r, id);
    forall k | k != id ensures Find(r, k) == Find(ts, k) {
      IdsMember(r, k);
      IdsMember(ts, k);
      if k in Ids(ts) {
        var t := Find(ts, k).value;
        FindMember(r, t);
      }
    }
  }

  /** The number of non-blank lines of the file. */
  function NonBlank(lines: seq<Line>): nat
    decreases |lines|
  {
    if |lines| == 0 then 0 else NonBlank(lines[..|lines| - 1]) + (if lines[|lines| - 1].Blank? then 0 else 1)
  }

  /** Every loaded ticket comes from a distinct non-blank line. */
  lemma {:induction false} LoadSize(lines: seq<Line>)
    ensures |Load(lines)| <= NonBlank(lines)
    decreases |lines|
  {
    if |lines| > 0 {
      LoadSize(lines[..|lines| - 1]);
    }
  }

  /** `max(ids)` of a non-empty series. */
  function MaxOf(xs: seq<int>): (m: int)
    requires |xs| > 0
    ensures m in xs && forall x :: x in xs ==> x <= m
    decreases |xs|
  {
    if |xs| == 1 then xs[0]
    else
      var m := MaxOf(xs[..|xs| - 1]);
      assert forall x :: x in xs ==> x in xs[..|xs| - 1] || x == xs[|xs| - 1];
      if xs[|xs| - 1] > m then xs[|xs| - 1] else m
  }

  /** `get_next_id`: 1000 for an empty store, the largest id plus one otherwise. */
  function NextId(ts: seq<Ticket>): (n: int)
    ensures forall t :: t in ts ==> t.id < n
    ensures |ts| == 0 ==> n == 1000
    ensures |ts| > 0 ==> n - 1 in Ids(ts)
  {
    if |ts| == 0 then 1000
    else
      assert forall t :: t in ts ==> t.id in Ids(ts);
      MaxOf(Ids(ts)) + 1
  }

  /** Saving a ticket under the next id moves the next id up by one, so
      successive creations are numbered consecutively from 1000. */
  lemma ConsecutiveIds(lines: seq<Line>, t: Ticket)
    requires t.id == NextId(Load(lines))
    ensures NextId(Load(lines + [Entry(t)])) == t.id + 1
    ensures lines == [] ==> t.id == 1000
  {
    var ts := Load(lines);
    assert (lines + [Entry(t)])[..|lines|] == lines;
    IdsMember(ts, t.id);
    assert Position(ts, t.id) == -1;
    var after := Load(lines + [Entry(t)]);
    assert after == ts + [t];
    assert t in after;
    var n := NextId(after);
    var j :| 0 <= j < |after| && Ids(after)[j] == n - 1;
    assert forall u :: u in after ==> u.id <= t.id;
    assert after[j] in after;
  }

  /** Ids are reused: deleting the ticket with the largest id (1000 or more)
      hands out an id no larger than the deleted one. */
  lemma IdReuse(ts: seq<Ticket>, id: int)
    requires NoDup(Ids(ts)) && |ts| > 0 && id == NextId(ts) - 1 && id >= 1000
    ensures NextId(RemoveId(ts, id)) <= id < NextId(ts)
  {
    RemoveIdSpec(ts, id);
    var r := RemoveId(ts, id);
    if |r| > 0 {
      var m := NextId(r) - 1;
      var j :| 0 <= j < |r| && r[j].id == m;
      assert r[j] in ts;
    }
  }

  /** The JSONL store, as the lines of its file. */
  class TicketStorage {
    var lines: seq<Line>

    /** A store over a file that holds `initial` (a new file is empty). */
    constructor (initial: seq<Line>)
      ensures lines == initial
    {
      lines := initial;
    }

    /** `load_all_tickets`: skips blank lines and records without an id. */
    method LoadAllTickets() returns (tickets: seq<Ticket>)
      ensures tickets == Load(lines)
      ensures NoDup(Ids(tickets))
    {
      tickets := [];
      var i := 0;
      while i < |lines|
        invariant 0 <= i <= |lines|
        invariant tickets == Load(lines[..i])
      {
        assert lines[..i + 1][..i] == lines[..i];
        match lines[i] {
          case Entry(t) => tickets := Upsert(tickets, t);
          case _ =>
        }
        i := i + 1;
      }
      assert lines[..i] == lines;
      LoadDistinct(lines);
    }

    /** `save_ticket`: appends one line. */
    method SaveTicket(t: Ticket)
      modifies this
      ensures lines == old(lines) + [Entry(t)]
    {
      lines := lines + [Entry(t)];
    }

    /** Rewrites the file with one line per ticket. */
    method WriteAll(ts: seq<Ticket>)
      modifies this
      ensures lines == Rewrite(ts)
    {
      lines := [];
      var i := 0;
      while i < |ts|
        invariant 0 <= i <= |ts|
        invariant lines == Rewrite(ts[..i])
      {
        lines := lines + [Entry(ts[i])];
        i := i + 1;
      }
      assert ts[..i] == ts;
    }

    /** `delete_ticket`: false and no change for an absent id; otherwise the
        file is rewritten without it. */
    method DeleteTicket(id: int) returns (deleted: bool)
      modifies this
      ensures deleted <==> id in Ids(Load(old(lines)))
      ensures !deleted ==> lines == old(lines)
      ensures deleted ==> lines == Rewrite(RemoveId(Load(old(lines)), id))
    {
      var tickets := LoadAllTickets();
      if id !in Ids(tickets) {
        return false;
      }
      WriteAll(RemoveId(tickets, id));
      deleted := true;
    }

    /** `get_ticket`. */
    method GetTicket(id: int) returns (r: Option<Ticket>)
      ensures r == Find(Load(lines), id)
      ensures r == LastEntry(lines, id)
    {
      var tickets := LoadAllTickets();
      r := Find(tickets, id);
      LastWriterWins(lines, id);
    }

    /** `compact`: rewrites the file with one line per id and answers how
        many non-blank lines that removed. */
    method Compact() returns (removed: int)
      modifies this
      ensures lines == Rewrite(Load(old(lines)))
      ensures removed == NonBlank(old(lines)) - |Load(old(lines))|
    {
      var tickets := LoadAllTickets();
      var originalLines := 0;
      var i := 0;
      while i < |lines|
        invariant 0 <= i <= |lines|
        invariant originalLines == NonBlank(lines[..i])
      {
        assert lines[..i + 1][..i] == lines[..i];
        if !lines[i].Blank? {
          originalLines := originalLines + 1;
        }
        i := i + 1;
      }
      assert lines[..i] == lines;
      WriteAll(tickets);
      removed := originalLines - |tickets|;
    }

    /** `clear`: truncates the file. */
    method Clear()
      modifies this
      ensures lines == []
    {
      lines := [];
    }

    /** `get_next_id`. */
    method GetNextId() returns (n: int)
      ensures n == NextId(Load(lines))
    {
      var tickets := LoadAllTickets();
      if |tickets| == 0 {
        return 1000;
      }
      n := MaxOf(Ids(tickets)) + 1;
    }
  }

  /** Deleting an id removes exactly that id from what the file loads as. */
  lemma DeleteEffect(lines: seq<Line>, id: int, k: int)
    ensures Find(Load(Rewrite(RemoveId(Load(lines), id))), k) == if k == id then None else Find(Load(lines), k)
  {
    LoadDistinct(lines);
    RemoveIdSpec(Load(lines), id);
    RewriteLoads(RemoveId(Load(lines), id));
  }

  /** Compacting keeps what the file loads as, leaves one line per id, and
      never reports a negative count. */
  lemma CompactEffect(lines: seq<Line>)
    ensures Load(Rewrite(Load(lines))) == Load(lines)
    ensures |Rewrite(Load(lines))| == |Load(lines)| == NonBlank(Rewrite(Load(lines)))
    ensures NonBlank(lines) - |Load(lines)| >= 0
  {
    LoadDistinct(lines);
    RewriteLoads(Load(lines));
    LoadSize(lines);
    AllNonBlank(Load(lines));
  }

  /** A rewritten file has no blank line. */
  lemma {:induction false} AllNonBlank(ts: seq<Ticket>)
    ensures NonBlank(Rewrite(ts)) == |ts|
    decreases |ts|
  {
    if |ts| > 0 {
      assert Rewrite(ts)[..|ts| - 1] == Rewrite(ts[..|ts| - 1]);
      AllNonBlank(ts[..|ts| - 1]);
    }
  }

  /** After clearing, nothing loads. */
  lemma ClearEffect()
    ensures Load([]) == [] && NextId(Load([])) == 1000
  {
  }
}
