/** What a host lookup tells, search by search: in terms of what its searches find, not of how it goes on. */
module HostReport {
  import opened Common
  import opened NameSearch
  import opened HostLookup
  import L = HostLookup

  /** Where the lookups end: at the first 'f', if the name is in the hosts file, else at their end. */
  function FileAt(lookups: string, file: Status): (n: nat)
    ensures n <= |lookups|
    ensures n < |lookups| ==> lookups[n] == 'f' && file == Success
    ensures file == Success ==> forall i :: 0 <= i < n ==> lookups[i] != 'f'
    ensures file != Success ==> n == |lookups|
  {
    if lookups == "" || (lookups[0] == 'f' && file == Success) then 0 else 1 + FileAt(lookups[1..], file)
  }

  /** The hosts file is asked before the lookups run out, and has the name. */
  predicate InFile(lookups: string, file: Status) {
    FileAt(lookups, file) < |lookups|
  }

  /** How often the lookups turn to the DNS at most. */
  function DnsRounds(lookups: string, file: Status): nat {
    Bs(lookups[..FileAt(lookups, file)])
  }

  /** The family that each round asks for first. */
  function FirstFamily(want: Family): Family {
    if want == Inet then Inet else Inet6
  }

  /** An AAAA search of no use: an answer without AAAA records or malformed, or no data, no answer that could be read, no answer. */
  predicate OfNoUse(r: Found) {
    if r.status == Success then r.parse == NoData || r.parse == BadResp
    else r.status == NoData || r.status == BadResp || r.status == Timeout
  }

  /** This search is followed by one for A. */
  predicate Retried(family: Family, r: Found) {
    family == Inet6 && OfNoUse(r)
  }

  /** A search that ends the lookup, unless it is followed by one for A. */
  predicate Final(r: Found) {
    r.status == Success || r.status == Destruction
  }

  /** How many of the first n searches were the last of their round. */
  function RoundsOver(families: seq<Family>, found: seq<Found>, n: nat): nat
    requires n <= |families| && n <= |found|
  {
    if n == 0 then 0
    else (if Retried(families[0], found[0]) then 0 else 1) + RoundsOver(families[1..], found[1..], n - 1)
  }

  /** Which searches are made, in rounds. */
  predicate SearchesRight(start: Family, first: Family, rounds: nat, found: seq<Found>, families: seq<Family>) {
    && 0 < |families| <= |found| + 1 && families[0] == start
    && forall i :: 0 <= i < |families| - 1 ==>
         && families[i + 1] == (if Retried(families[i], found[i]) then Inet else first)
         && (Retried(families[i], found[i]) || (!Final(found[i]) && RoundsOver(families, found, i + 1) < rounds))
  }

  /** When the caller is told: the last search was the last of its round, and final, or that of the last round. */
  predicate ToldRight(rounds: nat, found: seq<Found>, p: Course) {
    var n := |p.searched|;
    && 0 < n <= |found| + 1
    && (p.told.None? <==> n == |found| + 1)
    && (p.told.Some? ==>
          && n <= |found| && !Retried(p.searched[n - 1], found[n - 1])
          && (Final(found[n - 1]) || RoundsOver(p.searched, found, n) == rounds))
  }

  /** What is told after a last search, given what is told if the lookups run out. */
  function Verdict(last: Found, hit: bool): (Status, bool) {
    if last.status == Success then (last.parse, last.parse == Success)
    else if last.status == Destruction then (Destruction, false)
    else if hit then (Success, true)
    else (last.status, false)
  }

  lemma {:induction false} LookupGoesOn(h: Host, status: Status, file: Status)
    requires h.want != OtherFamily
    ensures var t, rounds := NextLookup(h, status, file), DnsRounds(h.remaining, file);
      if rounds == 0 then t == if InFile(h.remaining, file) then Tell(Success, h.timeouts, true) else Tell(status, h.timeouts, false)
      else
        && t.SearchFor? && t.family == FirstFamily(h.want)
        && t.host == h.(sent := Some(t.family), remaining := t.host.remaining)
        && DnsRounds(t.host.remaining, file) == rounds - 1
        && (InFile(t.host.remaining, file) <==> InFile(h.remaining, file))
    decreases |h.remaining|
  {
    hide FileAt, Bs, InFile, DnsRounds;
    if h.remaining == "" {
      NoRounds(file);
    } else {
      RoundsCons(h.remaining, file);
      if !(h.remaining[0] == 'f' && file == Success) && h.remaining[0] != 'b' {
        LookupGoesOn(h.(remaining := h.remaining[1..]), status, file);
      }
    }
  }

  lemma NoRounds(file: Status)
    ensures DnsRounds("", file) == 0 && !InFile("", file)
  {
  }

  lemma RoundsCons(s: string, file: Status)
    requires s != ""
    ensures s[0] == 'f' && file == Success ==> DnsRounds(s, file) == 0 && InFile(s, file)
    ensures !(s[0] == 'f' && file == Success) ==>
      && DnsRounds(s, file) == (if s[0] == 'b' then 1 else 0) + DnsRounds(s[1..], file)
      && (InFile(s, file) <==> InFile(s[1..], file))
  {
    if !(s[0] == 'f' && file == Success) {
      var n := FileAt(s[1..], file);
      assert FileAt(s, file) == n + 1;
      hide FileAt;
      assert s[..n + 1][0] == s[0] && s[..n + 1][1..] == s[1..][..n];
    }
  }

  /** What is right behind the first search is right of all. */
  lemma OneMore(start: Family, first: Family, rounds: nat, found: seq<Found>, p: Course, next: Family, left: nat, q: Course)
    requires found != [] && p == Course([start] + q.searched, q.told)
    requires if Retried(start, found[0]) then next == Inet && left == rounds
             else next == first && !Final(found[0]) && rounds > 1 && left == rounds - 1
    requires SearchesRight(next, first, left, found[1..], q.searched) && ToldRight(left, found[1..], q)
    ensures SearchesRight(start, first, rounds, found, p.searched) && ToldRight(rounds, found, p)
  {
    var fs, n := p.searched, |p.searched|;
    assert fs[1..] == q.searched;
    hide Retried, Final, RoundsOver;
    forall i | 0 <= i < n && i < |found|
      ensures RoundsOver(fs, found, i + 1) == (if Retried(start, found[0]) then 0 else 1) + RoundsOver(q.searched, found[1..], i)
      ensures i > 0 ==> fs[i] == q.searched[i - 1] && found[i] == found[1..][i - 1]
    {
      RoundsFirst(fs, found, i + 1);
    }
    RoundsNone(q.searched, found[1..]);
    forall i | 0 <= i < n - 1
      ensures fs[i + 1] == (if Retried(fs[i], found[i]) then Inet else first)
      ensures Retried(fs[i], found[i]) || (!Final(found[i]) && RoundsOver(fs, found, i + 1) < rounds)
    {
      assert fs[i + 1] == q.searched[i];
    }
  }

  lemma RoundsFirst(fs: seq<Family>, found: seq<Found>, n: nat)
    requires 0 < n <= |fs| && n <= |found|
    ensures RoundsOver(fs, found, n) == (if Retried(fs[0], found[0]) then 0 else 1) + RoundsOver(fs[1..], found[1..], n - 1)
  {
  }

  lemma RoundsNone(fs: seq<Family>, found: seq<Found>)
    ensures RoundsOver(fs, found, 0) == 0
  {
  }

  predicate PlayRight(t: Turn, found: seq<Found>, file: Status)
    requires t.SearchFor?
  {
    var p, rounds := L.Play(t, found, file), 1 + DnsRounds(t.host.remaining, file);
    && SearchesRight(t.family, FirstFamily(t.host.want), rounds, found, p.searched)
    && ToldRight(rounds, found, p)
    && (p.told.Some? ==>
          var v := Verdict(found[|p.searched| - 1], InFile(t.host.remaining, file));
          p.told == Some(Told(v.0, t.host.timeouts + Sum(found[..|p.searched|]), v.1)))
  }

  /** From any search of a lookup on. */
  lemma {:induction false} PlayIs(t: Turn, found: seq<Found>, file: Status)
    requires TurnOk(t) && t.SearchFor?
    ensures PlayRight(t, found, file)
    decreases |found|, 1
  {
    hide FileAt, Bs, SearchesRight, ToldRight, Retried, Final, Verdict, RoundsOver, OnFound, NextLookup, TryA, Sum;
    if found == [] {
      FirstOnly(t.family, FirstFamily(t.host.want), 1 + DnsRounds(t.host.remaining, file), L.Play(t, found, file));
    } else {
      var r := found[0];
      var h := t.host.(timeouts := t.host.timeouts + r.timeouts);
      OnFoundIs(t, r, file);
      OnFoundSpends(t, r, file);
      LookupGoesOn(h, r.status, file);
      if OnFound(t.host, r, file).SearchFor? {
        SearchGoesOn(t, found, file);
      } else {
        PlayTell(OnFound(t.host, r, file), found[1..], file);
        LastSearch(t.family, FirstFamily(t.host.want), 1 + DnsRounds(t.host.remaining, file), found, L.Play(t, found, file));
      }
    }
  }

  /** Another search follows. */
  lemma {:induction false} SearchGoesOn(t: Turn, found: seq<Found>, file: Status)
    requires TurnOk(t) && t.SearchFor? && found != [] && OnFound(t.host, found[0], file).SearchFor?
    ensures PlayRight(t, found, file)
    decreases |found|, 0
  {
    hide FileAt, Bs, SearchesRight, ToldRight, Retried, Final, Verdict, RoundsOver, OnFound, NextLookup, TryA, Sum;
    var first, rounds := FirstFamily(t.host.want), 1 + DnsRounds(t.host.remaining, file);
    var u := OnFound(t.host, found[0], file);
    OnFoundIs(t, found[0], file);
    OnFoundSpends(t, found[0], file);
    LookupGoesOn(t.host.(timeouts := t.host.timeouts + found[0].timeouts), found[0].status, file);
    PlayIs(u, found[1..], file);
    var p, q := L.Play(t, found, file), L.Play(u, found[1..], file);
    assert p == Course([t.family] + q.searched, q.told) && InFile(u.host.remaining, file) == InFile(t.host.remaining, file);
    TellsLast(found, 1 + DnsRounds(u.host.remaining, file), q);
    OneMore(t.family, first, rounds, found, p, u.family, 1 + DnsRounds(u.host.remaining, file), q);
    SumFirst(found, |q.searched|);
  }

  lemma PlayTell(t: Turn, found: seq<Found>, file: Status)
    requires t.Tell?
    ensures L.Play(t, found, file) == Course([], Some(Told(t.status, t.timeouts, t.found)))
  {
  }

  lemma TellsLast(found: seq<Found>, rounds: nat, q: Course)
    requires found != [] && ToldRight(rounds, found[1..], q)
    ensures q.told.Some? ==> 0 < |q.searched| <= |found| - 1 && found[|q.searched|] == found[1..][|q.searched| - 1]
  {
  }

  lemma FirstOnly(family: Family, first: Family, rounds: nat, p: Course)
    requires p == Course([family], None)
    ensures SearchesRight(family, first, rounds, [], p.searched) && ToldRight(rounds, [], p)
  {
  }

  /** What one search's report leads to. */
  lemma OnFoundIs(t: Turn, r: Found, file: Status)
    requires TurnOk(t) && t.SearchFor?
    ensures var h := t.host.(timeouts := t.host.timeouts + r.timeouts);
      OnFound(t.host, r, file) == if Retried(t.family, r) then SearchFor(Inet, h.(sent := Some(Inet)))
                                  else if Final(r) then Tell(Verdict(r, false).0, h.timeouts, Verdict(r, false).1)
                                  else NextLookup(h, r.status, file)
    ensures Final(r) ==> Verdict(r, true) == Verdict(r, false)
    ensures !Final(r) ==> Verdict(r, true) == (Success, true) && Verdict(r, false) == (r.status, false)
  {
    hide NextLookup;
  }

  lemma SumFirst(found: seq<Found>, n: nat)
    requires found != []
    ensures n <= |found| - 1 ==> Sum(found[..n + 1]) == found[0].timeouts + Sum(found[1..][..n])
  {
    if n <= |found| - 1 { assert found[..n + 1][1..] == found[1..][..n]; }
  }

  lemma LastSearch(family: Family, first: Family, rounds: nat, found: seq<Found>, p: Course)
    requires found != [] && p.searched == [family] + [] && p.told.Some? && !Retried(family, found[0])
    requires Final(found[0]) || rounds == 1
    ensures SearchesRight(family, first, rounds, found, p.searched) && ToldRight(rounds, found, p)
    ensures Sum(found[..1]) == found[0].timeouts
  {
    assert p.searched == [family] && found[..1][1..] == [];
    RoundsFirst(p.searched, found, 1);
    RoundsNone(p.searched[1..], found[1..]);
  }

  /**
   * A whole lookup.  A family other than IPv4 and IPv6, a name that is an address and missing memory are told at once.
   * Else rounds of searches are made, one for each 'b' before the 'f' that has the name, or before the end: A for IPv4,
   * and else AAAA, which is followed by A exactly when it was of no use.  A search that is not followed by A ends the
   * lookup if it succeeds - then with the status of its answer's parse, and a host exactly if that is success - or if the
   * channel is destroyed; when the rounds run out, the hosts file gives the host if it has the name, and else what the
   * last search said is told, or that the connection was refused if there was none.
   */
  lemma LookupTells(want: Family, fake: Option<Status>, allocates: bool, lookups: string, file: Status, found: seq<Found>)
    ensures var p := L.Play(L.Begin(want, fake, allocates, lookups, file), found, file);
      var rounds, n := DnsRounds(lookups, file), |p.searched|;
      if want == OtherFamily then p == Course([], Some(Told(NotImplemented, 0, false)))
      else if fake.Some? then p == Course([], Some(Told(fake.value, 0, fake.value == Success)))
      else if !allocates then p == Course([], Some(Told(NoMem, 0, false)))
      else if rounds == 0 then
        p == Course([], Some(if InFile(lookups, file) then Told(Success, 0, true) else Told(ConnRefused, 0, false)))
      else
        && SearchesRight(FirstFamily(want), FirstFamily(want), rounds, found, p.searched)
        && ToldRight(rounds, found, p)
        && (p.told.Some? ==>
              var v := Verdict(found[n - 1], InFile(lookups, file)); p.told == Some(Told(v.0, Sum(found[..n]), v.1)))
  {
    hide FileAt, Bs, SearchesRight, ToldRight;
    var h := Host(want, None, lookups, 0);
    if want != OtherFamily && fake.None? && allocates {
      LookupGoesOn(h, ConnRefused, file);
      var t := L.Begin(want, fake, allocates, lookups, file);
      if t.SearchFor? {
        NextLookupSpends(h, ConnRefused, file);
        PlayIs(t, found, file);
      }
    }
  }

  /** A host is told exactly when the name is an address, or the last search brings an answer that parses, or no search is
      final and the hosts file is asked in its turn and has the name. */
  lemma HostIff(want: Family, fake: Option<Status>, allocates: bool, lookups: string, file: Status, found: seq<Found>)
    ensures var p := L.Play(L.Begin(want, fake, allocates, lookups, file), found, file);
      var n := |p.searched|;
      p.told.Some? && p.told.value.host <==>
        want != OtherFamily
        && if fake.Some? then fake == Some(Success)
           else allocates && p.told.Some?
                && ((0 < n <= |found| && Answers(found[n - 1]))
                    || (InFile(lookups, file) && (n == 0 || (n <= |found| && !Final(found[n - 1])))))
  {
    hide FileAt, Bs, SearchesRight;
    LookupTells(want, fake, allocates, lookups, file, found);
  }
}
