/** Looking a host up: the hosts file and up to two searches for each 'b', then one report. */
module HostLookup {
  import opened Common
  import opened NameSearch

  datatype Family = Inet | Inet6 | Unspec | OtherFamily

  /** `struct host_query` */
  datatype Host = Host(want: Family, sent: Option<Family>, remaining: string, timeouts: nat)

  /** What a search reports, and what parsing its answer for the family asked for would yield. */
  datatype Found = Found(status: Status, timeouts: nat, parse: Status)

  /** Another search, or the caller's callback; `found` says whether it is given a host. */
  datatype Turn = SearchFor(family: Family, host: Host) | Tell(status: Status, timeouts: nat, found: bool)

  /** next_lookup; `file` is what the hosts file says of the name. */
  function NextLookup(h: Host, status: Status, file: Status): Turn
    decreases |h.remaining|
  {
    if h.remaining == "" then Tell(status, h.timeouts, false) else
    var rest := h.(remaining := h.remaining[1..]);
    if h.remaining[0] == 'b' then
      var family := if h.want == Inet6 || h.want == Unspec then Inet6 else Inet;
      SearchFor(family, rest.(sent := Some(family)))
    else if h.remaining[0] == 'f' && file == Success then Tell(Success, h.timeouts, true)
    else NextLookup(rest, status, file)
  }

  /** An AAAA search that yields nothing is followed by one for A. */
  predicate TryA(h: Host, r: Found) {
    h.sent == Some(Inet6)
    && if r.status == Success then r.parse == NoData || r.parse == BadResp
       else r.status == NoData || r.status == BadResp || r.status == Timeout
  }

  /** host_callback */
  function OnFound(h0: Host, r: Found, file: Status): Turn {
    var h := h0.(timeouts := h0.timeouts + r.timeouts);
    if TryA(h, r) then SearchFor(Inet, h.(sent := Some(Inet)))
    else if r.status == Success then
      if h.sent == Some(Inet) || h.sent == Some(Inet6) then Tell(r.parse, h.timeouts, r.parse == Success)
      else Tell(Success, h.timeouts, false)
    else if r.status == Destruction then Tell(r.status, h.timeouts, false)
    else NextLookup(h, r.status, file)
  }

  /** ares_gethostbyname; `fake` is what fake_hostent reports when the name is an address. */
  function Begin(want: Family, fake: Option<Status>, allocates: bool, lookups: string, file: Status): Turn {
    if want == OtherFamily then Tell(NotImplemented, 0, false)
    else if fake.Some? then Tell(fake.value, 0, fake.value == Success)
    else if !allocates then Tell(NoMem, 0, false)
    else NextLookup(Host(want, None, lookups, 0), ConnRefused, file)
  }

  datatype Told = Told(status: Status, timeouts: nat, host: bool)

  datatype Course = Course(searched: seq<Family>, told: Option<Told>)

  /** A lookup driven by what its searches find. */
  function Play(t: Turn, found: seq<Found>, file: Status): Course
    decreases |found|
  {
    match t
    case Tell(status, timeouts, host) => Course([], Some(Told(status, timeouts, host)))
    case SearchFor(family, h) =>
      if found == [] then Course([family], None) else
      var more := Play(OnFound(h, found[0], file), found[1..], file);
      Course([family] + more.searched, more.told)
  }

  /** How many times 'b' occurs. */
  function Bs(lookups: string): nat {
    if lookups == "" then 0 else (if lookups[0] == 'b' then 1 else 0) + Bs(lookups[1..])
  }

  /** How many searches may still be started. */
  function Budget(t: Turn): nat {
    match t
    case Tell(_, _, _) => 0
    case SearchFor(family, h) => 1 + (if family == Inet6 then 1 else 0) + PerB(h.want) * Bs(h.remaining)
  }

  function PerB(want: Family): nat {
    if want == Inet then 1 else 2
  }

  predicate TurnOk(t: Turn) {
    match t
    case Tell(_, _, _) => true
    case SearchFor(family, h) =>
      && h.want != OtherFamily && h.sent == Some(family) && (family == Inet || family == Inet6)
      && (h.want == Inet ==> family == Inet)
  }

  lemma {:induction false} NextLookupSpends(h: Host, status: Status, file: Status)
    requires h.want != OtherFamily
    ensures var t := NextLookup(h, status, file);
            && TurnOk(t) && Budget(t) <= PerB(h.want) * Bs(h.remaining)
            && (t.SearchFor? ==> t.host.want == h.want && t.host.timeouts == h.timeouts && (h.want != Inet ==> t.family == Inet6))
            && (t.Tell? ==> t.timeouts == h.timeouts)
    decreases |h.remaining|
  {
    if h.remaining != "" && h.remaining[0] != 'b' && !(h.remaining[0] == 'f' && file == Success) {
      NextLookupSpends(h.(remaining := h.remaining[1..]), status, file);
    }
  }

  lemma OnFoundSpends(t: Turn, r: Found, file: Status)
    requires TurnOk(t) && t.SearchFor?
    ensures var u := OnFound(t.host, r, file);
            && TurnOk(u) && Budget(u) < Budget(t)
            && (u.SearchFor? ==> u.host.want == t.host.want && u.host.timeouts == t.host.timeouts + r.timeouts)
            && (u.SearchFor? && t.host.want != Inet ==>
                  u.family == if t.family == Inet6 && TryA(t.host, r) then Inet else Inet6)
            && (u.Tell? ==> u.timeouts == t.host.timeouts + r.timeouts)
  {
    NextLookupSpends(t.host.(timeouts := t.host.timeouts + r.timeouts), r.status, file);
  }

  function Sum(found: seq<Found>): nat {
    if found == [] then 0 else found[0].timeouts + Sum(found[1..])
  }

  /** For one family only A is asked; for the others each round is AAAA, or AAAA and then A. */
  predicate Rounds(fs: seq<Family>, want: Family, open: bool)
    decreases |fs|
  {
    fs == []
    || (want == Inet && fs[0] == Inet && Rounds(fs[1..], want, false))
    || (want != Inet && fs[0] == Inet6 && Rounds(fs[1..], want, true))
    || (want != Inet && open && fs[0] == Inet && Rounds(fs[1..], want, false))
  }

  function Spent(t: Turn): nat {
    match t
    case Tell(_, timeouts, _) => timeouts
    case SearchFor(_, h) => h.timeouts
  }

  /** A running lookup: one report at most, with all timeouts, no more searches than the lookups allow, rounds in order. */
  lemma {:induction false} PlayBounded(t: Turn, found: seq<Found>, file: Status, open: bool)
    requires TurnOk(t) && (t.SearchFor? && t.host.want != Inet ==> t.family == Inet6 || open)
    ensures var p := Play(t, found, file);
            && |p.searched| <= Budget(t)
            && (p.told.None? ==> |p.searched| == |found| + 1)
            && (|found| >= Budget(t) ==> p.told.Some?)
            && (p.told.Some? ==> |p.searched| <= |found| && p.told.value.timeouts == Spent(t) + Sum(found[..|p.searched|]))
            && (t.SearchFor? ==> Rounds(p.searched, t.host.want, open))
            && (t.Tell? ==> p.searched == [])
    decreases |found|
  {
    if t.SearchFor? && found != [] {
      var u := OnFound(t.host, found[0], file);
      OnFoundSpends(t, found[0], file);
      PlayBounded(u, found[1..], file, t.family == Inet6);
      var more := Play(u, found[1..], file);
      assert ([t.family] + more.searched)[1..] == more.searched;
      if more.told.Some? {
        assert found[..|more.searched| + 1][1..] == found[1..][..|more.searched|];
      }
    } else {
      assert found[..0] == [];
      if t.SearchFor? {
        assert [t.family][1..] == [];
      }
    }
  }

  /**
   * For every family, lookup order, hosts file and outcome of the searches: at most two searches for each 'b' (one
   * when only IPv4 is wanted), AAAA before A; exactly one report once the searches have reported, with their
   * timeouts added up.
   */
  lemma LookupBounded(want: Family, fake: Option<Status>, allocates: bool, lookups: string, file: Status, found: seq<Found>)
    ensures var p := Play(Begin(want, fake, allocates, lookups, file), found, file);
            && |p.searched| <= PerB(want) * Bs(lookups) && Rounds(p.searched, want, false)
            && (p.told.None? ==> |p.searched| == |found| + 1)
            && (|found| >= PerB(want) * Bs(lookups) ==> p.told.Some?)
            && (p.told.Some? ==> |p.searched| <= |found| && p.told.value.timeouts == Sum(found[..|p.searched|]))
  {
    var t := Begin(want, fake, allocates, lookups, file);
    if want != OtherFamily {
      NextLookupSpends(Host(want, None, lookups, 0), ConnRefused, file);
    }
    PlayBounded(t, found, file, false);
  }

  // ---------------------------------------------------------------- the lookup on top of its searches

  /** One call of ares_search: what its memory allows, and the replies that come. */
  datatype Searched = Searched(alias: Alias, copies: bool, allocates: bool, joins: bool, script: seq<Answered>)

  function Played(c: Channel, name: string, s: Searched): NameSearch.Played
    requires name != ""
  {
    Whole(NameSearch.Begin(c, name, s.alias, s.copies, s.allocates, s.joins), s.script)
  }

  /** The search has reported, and this is what it reported. */
  predicate Reports(c: Channel, name: string, s: Searched, r: Found)
    requires name != ""
  {
    var final := Played(c, name, s).final;
    final.Some? && r.status == final.value.status && r.timeouts == final.value.timeouts
  }

  /** The replies to the queries that a search made. */
  function Replies(c: Channel, name: string, s: Searched): seq<Answered>
    requires name != ""
  {
    var n := |Played(c, name, s).asked|;
    if n <= |s.script| then s.script[..n] else s.script
  }

  /** The replies to all queries, search by search. */
  function AllReplies(c: Channel, name: string, searches: seq<Searched>): seq<Answered>
    requires name != ""
  {
    if searches == [] then [] else Replies(c, name, searches[0]) + AllReplies(c, name, searches[1..])
  }

  lemma ReportCounts(c: Channel, name: string, s: Searched, r: Found)
    requires name != "" && Reports(c, name, s, r)
    ensures |Played(c, name, s).asked| <= |s.script| && r.timeouts == NameSearch.Timeouts(Replies(c, name, s))
  {
    match SingleDomain(c, name, s.alias, s.copies) {
      case Several => SearchInOrder(c, name, s.alias, s.copies, s.allocates, s.joins, s.script);
      case Only(_) =>
        if s.script != [] {
          SingleQuery(c, name, s.alias, s.copies, s.allocates, s.joins, s.script);
          assert s.script[..1] == [s.script[0]] && [s.script[0]][1..] == [];
        }
      case Error(_) => assert s.script[..0] == [];
    }
  }

  lemma {:induction false} SumCounts(c: Channel, name: string, searches: seq<Searched>, found: seq<Found>)
    requires name != "" && |searches| == |found|
    requires forall i :: 0 <= i < |found| ==> Reports(c, name, searches[i], found[i])
    ensures Sum(found) == NameSearch.Timeouts(AllReplies(c, name, searches))
    decreases |found|
  {
    hide Reports, Replies, Played;
    if found != [] {
      ReportCounts(c, name, searches[0], found[0]);
      SumCounts(c, name, searches[1..], found[1..]);
      TimeoutsAppend(Replies(c, name, searches[0]), AllReplies(c, name, searches[1..]));
    }
  }

  /**
   * With every search made by ares_search - for the same name, whatever memory and replies it gets - the count of
   * timeouts reported is that of the queries made by exactly the searches of this lookup.
   */
  lemma TimeoutsOfAllQueries(want: Family, fake: Option<Status>, allocates: bool, lookups: string, file: Status,
                             c: Channel, name: string, searches: seq<Searched>, found: seq<Found>)
    requires name != "" && |searches| == |found|
    requires forall i :: 0 <= i < |found| ==> Reports(c, name, searches[i], found[i])
    ensures var p := Play(Begin(want, fake, allocates, lookups, file), found, file);
      p.told.Some? ==>
        && |p.searched| <= |searches|
        && p.told.value.timeouts == NameSearch.Timeouts(AllReplies(c, name, searches[..|p.searched|]))
  {
    hide Reports, Play, Begin;
    LookupBounded(want, fake, allocates, lookups, file, found);
    var p := Play(Begin(want, fake, allocates, lookups, file), found, file);
    if p.told.Some? {
      var k := |p.searched|;
      SumCounts(c, name, searches[..k], found[..k]);
    }
  }

  lemma {:induction false} TimeoutsAppend(a: seq<NameSearch.Answered>, b: seq<NameSearch.Answered>)
    ensures NameSearch.Timeouts(a + b) == NameSearch.Timeouts(a) + NameSearch.Timeouts(b)
    decreases |a|
  {
    if a == [] {
      assert a + b == b;
    } else {
      assert (a + b)[1..] == a[1..] + b;
      TimeoutsAppend(a[1..], b);
    }
  }

  predicate Answers(r: Found) {
    r.status == Success && r.parse == Success
  }

  lemma FoundTells(t: Turn, r: Found, file: Status)
    requires TurnOk(t) && t.SearchFor?
    ensures var u := OnFound(t.host, r, file);
            u.Tell? && u.found ==> u.status == Success && (Answers(r) || file == Success)
  {
    NextLookupTells(t.host.(timeouts := t.host.timeouts + r.timeouts), r.status, file);
  }

  lemma {:induction false} PlayTells(t: Turn, found: seq<Found>, file: Status)
    requires TurnOk(t) && t.SearchFor?
    ensures var p := Play(t, found, file);
      p.told.Some? && p.told.value.host ==>
        && p.told.value.status == Success && 0 < |p.searched| <= |found|
        && (file == Success || Answers(found[|p.searched| - 1]))
    decreases |found|
  {
    if found != [] {
      OnFoundSpends(t, found[0], file);
      FoundTells(t, found[0], file);
      var u := OnFound(t.host, found[0], file);
      if u.SearchFor? { PlayTells(u, found[1..], file); }
    }
  }

  /**
   * Over a whole lookup a host is given only with success, and only when the name is an address, or is in the hosts
   * file, or the last search brought an answer that parses.
   */
  lemma HostOnlyOnSuccess(want: Family, fake: Option<Status>, allocates: bool, lookups: string, file: Status, found: seq<Found>)
    ensures var p := Play(Begin(want, fake, allocates, lookups, file), found, file);
      p.told.Some? && p.told.value.host ==>
        && p.told.value.status == Success
        && (fake == Some(Success) || file == Success || (0 < |p.searched| <= |found| && Answers(found[|p.searched| - 1])))
  {
    var h := Host(want, None, lookups, 0);
    if want != OtherFamily {
      NextLookupSpends(h, ConnRefused, file);
      NextLookupTells(h, ConnRefused, file);
    }
    var t := Begin(want, fake, allocates, lookups, file);
    if t.SearchFor? { PlayTells(t, found, file); }
  }

  lemma {:induction false} NextLookupTells(h: Host, status: Status, file: Status)
    ensures var t := NextLookup(h, status, file); t.Tell? && t.found ==> t.status == Success && file == Success
    decreases |h.remaining|
  {
    if h.remaining != "" && h.remaining[0] != 'b' {
      NextLookupTells(h.(remaining := h.remaining[1..]), status, file);
    }
  }

  // ---------------------------------------------------------------- the record that the callbacks update

  class HostQuery {
    const want: Family
    var sent: Option<Family>
    var remaining: string
    var timeouts: nat

    function Value(): Host
      reads this
    {
      Host(want, sent, remaining, timeouts)
    }

    constructor (want: Family, lookups: string)
      ensures Value() == Host(want, None, lookups, 0)
    {
      this.want, sent, remaining, timeouts := want, None, lookups, 0;
    }

    /** next_lookup: the loop over the lookups that remain. */
    method Next(code: Status, file: Status) returns (search: Option<Family>, told: Option<Told>)
      modifies this
      ensures match NextLookup(old(Value()), code, file)
              case SearchFor(f, h) => search == Some(f) && told == None && Value() == h
              case Tell(status, t, host) => search == None && told == Some(Told(status, t, host))
    {
      ghost var start := Value();
      var p := 0;
      while p < |remaining|
        invariant p <= |remaining| && Value() == start
        invariant NextLookup(start.(remaining := start.remaining[p..]), code, file) == NextLookup(start, code, file)
      {
        assert start.remaining[p..][1..] == start.remaining[p + 1..];
        if remaining[p] == 'b' {
          remaining := remaining[p + 1..];
          sent := Some(if want == Inet6 || want == Unspec then Inet6 else Inet);
          return sent, None;
        }
        if remaining[p] == 'f' && file == Success {
          return None, Some(Told(Success, timeouts, true));
        }
        p := p + 1;
      }
      return None, Some(Told(code, timeouts, false));
    }

    /** host_callback */
    method Callback(r: Found, file: Status) returns (search: Option<Family>, told: Option<Told>)
      modifies this
      ensures match OnFound(old(Value()), r, file)
              case SearchFor(f, h) => search == Some(f) && told == None && Value() == h
              case Tell(status, t, host) => search == None && told == Some(Told(status, t, host))
    {
      timeouts := timeouts + r.timeouts;
      if r.status == Success {
        if sent == Some(Inet6) && (r.parse == NoData || r.parse == BadResp) {
          sent := Some(Inet);
          return sent, None;
        }
        if sent == Some(Inet) || sent == Some(Inet6) {
          return None, Some(Told(r.parse, timeouts, r.parse == Success));
        }
        return None, Some(Told(Success, timeouts, false));
      }
      if (r.status == NoData || r.status == BadResp || r.status == Timeout) && sent == Some(Inet6) {
        sent := Some(Inet);
        return sent, None;
      }
      if r.status == Destruction {
        return None, Some(Told(r.status, timeouts, false));
      }
      search, told := Next(r.status, file);
    }
  }
}
