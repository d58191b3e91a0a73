/** Looking a name up through the search domains: which names are asked for, in which order, and what is reported. */
module NameSearch {
  import opened Common

  datatype Status =
    | Success | NoData | ServFail | NotFound | BadResp | Timeout | ConnRefused | NoMem | FileError | NotImplemented
    | Destruction | Other(code: int)

  /** What ares_query reports for one name. */
  datatype Reply = Reply(status: Status, timeouts: nat, answer: Bytes)

  /** What single_domain finds in the aliases file. */
  datatype Alias = NoAlias | Alias(name: string) | AliasError(status: Status)

  datatype Channel = Channel(domains: seq<string>, ndots: nat, noAliases: bool, noSearch: bool)

  /** `struct search_query`; Direct stands for the query that ares_search makes without one. */
  datatype Search =
    | Direct
    | Search(name: string, domains: seq<string>, nextDomain: nat, tryingAsIs: bool, statusAsIs: Option<Status>,
             timeouts: nat, everGotNoData: bool)

  /** Either another query, or the caller's callback. */
  datatype Move = Ask(name: string, search: Search) | Report(status: Status, timeouts: nat, answer: Bytes)

  function Dots(name: string): nat {
    if name == "" then 0 else (if name[0] == '.' then 1 else 0) + Dots(name[1..])
  }

  /** cat_domain */
  function Cat(name: string, domain: string): string {
    name + "." + domain
  }

  /** single_domain: the one name to ask for, no name, or an error; `copies` says whether strdup finds memory. */
  datatype Single = Only(name: string) | Several | Error(status: Status)

  function SingleDomain(c: Channel, name: string, alias: Alias, copies: bool): Single
    requires name != ""
  {
    var own := if copies then Only(name) else Error(NoMem);
    if name[|name| - 1] == '.' then own
    else if !c.noAliases && Dots(name) == 0 && alias.Alias? then if copies then Only(alias.name) else Error(NoMem)
    else if !c.noAliases && Dots(name) == 0 && alias.AliasError? then Error(alias.status)
    else if c.noSearch || c.domains == [] then own
    else Several
  }

  /** ares_search; `allocates` covers its own memory, `joins` that of the first cat_domain. */
  function Begin(c: Channel, name: string, alias: Alias, copies: bool, allocates: bool, joins: bool): Move
    requires name != ""
  {
    match SingleDomain(c, name, alias, copies)
    case Error(status) => Report(status, 0, [])
    case Only(s) => Ask(s, Direct)
    case Several =>
      if !allocates then Report(NoMem, 0, [])
      else if Dots(name) >= c.ndots then Ask(name, Search(name, c.domains, 0, true, None, 0, false))
      else if joins then Ask(Cat(name, c.domains[0]), Search(name, c.domains, 1, false, None, 0, false))
      else Report(NoMem, 0, [])
  }

  predicate Soft(s: Status) {
    s == NoData || s == ServFail || s == NotFound
  }

  /** search_callback; for a query without a record, the caller's own callback. `joins` is the memory of cat_domain. */
  function OnReply(s: Search, r: Reply, joins: bool): Move {
    if s.Direct? then Report(r.status, r.timeouts, r.answer) else
    var timeouts := s.timeouts + r.timeouts;
    if !Soft(r.status) then Report(r.status, timeouts, r.answer) else
    var s1 := s.(timeouts := timeouts, statusAsIs := if s.tryingAsIs then Some(r.status) else s.statusAsIs,
                 everGotNoData := s.everGotNoData || r.status == NoData);
    if s.nextDomain < |s.domains| then
      if !joins then Report(NoMem, timeouts, [])
      else Ask(Cat(s.name, s.domains[s.nextDomain]), s1.(tryingAsIs := false, nextDomain := s.nextDomain + 1))
    else match s1.statusAsIs
      case None => Ask(s.name, s1.(tryingAsIs := true))
      case Some(asIs) =>
        Report(if asIs == NotFound && s1.everGotNoData then NoData else asIs, timeouts, [])
  }

  // ---------------------------------------------------------------- a whole search

  datatype Answered = Answered(reply: Reply, joins: bool)

  datatype Final = Final(status: Status, timeouts: nat, answer: Bytes)

  /** The names asked for after the first one, and the final callback if it has come. */
  datatype Played = Played(asked: seq<string>, final: Option<Final>)

  function Play(s: Search, script: seq<Answered>): Played
    decreases |script|
  {
    if script == [] then Played([], None) else
    match OnReply(s, script[0].reply, script[0].joins)
    case Report(status, timeouts, answer) => Played([], Some(Final(status, timeouts, answer)))
    case Ask(name, t) =>
      var more := Play(t, script[1..]);
      Played([name] + more.asked, more.final)
  }

  function Joined(name: string, domains: seq<string>): (r: seq<string>)
    ensures |r| == |domains| && forall i :: 0 <= i < |domains| ==> r[i] == name + "." + domains[i]
  {
    seq(|domains|, i requires 0 <= i < |domains| => name + "." + domains[i])
  }

  /** The order of the names: as it stands first if it has dots enough, else last; each domain once. */
  function Order(name: string, domains: seq<string>, asIsFirst: bool): seq<string> {
    if asIsFirst then [name] + Joined(name, domains) else Joined(name, domains) + [name]
  }

  /** Where the search stands, read off its fields. */
  predicate Coherent(s: Search, asIsFirst: bool) {
    && s.Search? && s.domains != [] && s.nextDomain <= |s.domains|
    && (s.tryingAsIs ==> s.statusAsIs == None && s.nextDomain == if asIsFirst then 0 else |s.domains|)
    && (!s.tryingAsIs ==> s.nextDomain > 0 && (s.statusAsIs.Some? <==> asIsFirst))
  }

  /** The place in the order of the name being asked for. */
  function Place(s: Search, asIsFirst: bool): nat
    requires Coherent(s, asIsFirst)
  {
    if s.tryingAsIs then if asIsFirst then 0 else |s.domains|
    else if asIsFirst then s.nextDomain else s.nextDomain - 1
  }

  function OrderOf(s: Search, asIsFirst: bool): seq<string>
    requires s.Search?
  {
    Order(s.name, s.domains, asIsFirst)
  }

  /** A reply leads to the next name of the order, or to the report; a soft reply reports only behind the last name. */
  lemma OneReply(s: Search, asIsFirst: bool, r: Reply, joins: bool)
    requires Coherent(s, asIsFirst)
    ensures var m := OnReply(s, r, joins);
            var place := Place(s, asIsFirst);
            && place < |OrderOf(s, asIsFirst)|
            && (m.Ask? ==>
                  && Soft(r.status) && m.search.Search?
                  && Coherent(m.search, asIsFirst) && Place(m.search, asIsFirst) == place + 1
                  && m.search.name == s.name && m.search.domains == s.domains
                  && place + 1 < |OrderOf(s, asIsFirst)| && m.name == OrderOf(s, asIsFirst)[place + 1]
                  && m.search.timeouts == s.timeouts + r.timeouts)
            && (m.Report? ==> m.timeouts == s.timeouts + r.timeouts)
            && (m.Report? && Soft(r.status) && joins ==> place + 1 == |OrderOf(s, asIsFirst)|)
            && (Soft(r.status) && place + 1 == |OrderOf(s, asIsFirst)| ==> m.Report?)
  {
  }

  function Timeouts(script: seq<Answered>): nat {
    if script == [] then 0 else script[0].reply.timeouts + Timeouts(script[1..])
  }

  /**
   * From any point of a search: the names still asked for follow the order; the callback comes at most once and
   * last, with all timeouts added up; and it does come once every name of the order has its reply.
   */
  lemma {:induction false} PlayFollows(s: Search, asIsFirst: bool, script: seq<Answered>)
    requires s.Search? && Coherent(s, asIsFirst)
    ensures var p := Play(s, script);
            var rest := OrderOf(s, asIsFirst)[Place(s, asIsFirst) + 1..];
            && p.asked <= rest
            && (p.final.Some? ==> |p.asked| < |script|
                                  && p.final.value.timeouts == s.timeouts + Timeouts(script[..|p.asked| + 1]))
            && (p.final.None? ==> |p.asked| == |script|)
            && (|script| > |rest| ==> p.final.Some?)
    decreases |script|
  {
    hide OrderOf, Coherent, OnReply, Place;
    assert Play(s, []) == Played([], None);
    OneReply(s, asIsFirst, if script == [] then Reply(Success, 0, []) else script[0].reply, script == [] || script[0].joins);
    if script != [] {
      var m := OnReply(s, script[0].reply, script[0].joins);
      var order, place := OrderOf(s, asIsFirst), Place(s, asIsFirst);
      if m.Ask? {
        var more := Play(m.search, script[1..]);
        PlayFollows(m.search, asIsFirst, script[1..]);
        SameOrder(s, m.search, asIsFirst);
        PrefixStep(order, place, m.name, more.asked);
        if more.final.Some? {
          TimeoutsStep(script, |more.asked| + 1);
        }
      } else {
        TimeoutsStep(script, 0);
        assert script[1..][..0] == [];
      }
    }
  }

  lemma PrefixStep(order: seq<string>, place: nat, name: string, asked: seq<string>)
    requires place + 1 < |order| && order[place + 1] == name && asked <= order[place + 2..]
    ensures [name] + asked <= order[place + 1..] && |order[place + 1..]| == 1 + |order[place + 2..]|
  {
    assert order[place + 1..] == [name] + order[place + 2..];
  }

  lemma TimeoutsStep(script: seq<Answered>, k: nat)
    requires k < |script|
    ensures Timeouts(script[..k + 1]) == script[0].reply.timeouts + Timeouts(script[1..][..k])
  {
    assert script[..k + 1][1..] == script[1..][..k];
  }

  lemma SameOrder(s: Search, t: Search, asIsFirst: bool)
    requires s.Search? && t.Search? && t.name == s.name && t.domains == s.domains
    ensures OrderOf(t, asIsFirst) == OrderOf(s, asIsFirst)
  {
  }

  /** All names asked for by a search, the first included, and its final callback. */
  function Whole(first: Move, script: seq<Answered>): Played {
    match first
    case Report(status, timeouts, answer) => Played([], Some(Final(status, timeouts, answer)))
    case Ask(name, s) => var p := Play(s, script); Played([name] + p.asked, p.final)
  }

  /** What a search asks for, for any channel, name, replies and memory. */
  lemma SearchInOrder(c: Channel, name: string, alias: Alias, copies: bool, allocates: bool, joins: bool, script: seq<Answered>)
    requires name != "" && SingleDomain(c, name, alias, copies) == Several
    ensures var order := Order(name, c.domains, Dots(name) >= c.ndots);
            var p := Whole(Begin(c, name, alias, copies, allocates, joins), script);
            && p.asked <= order
            && (p.final.None? ==> |p.asked| == |script| + 1)
            && (|script| >= |order| ==> p.final.Some?)
            && (p.final.Some? ==> |p.asked| <= |script| && p.final.value.timeouts == Timeouts(script[..|p.asked|]))
  {
    var m := Begin(c, name, alias, copies, allocates, joins);
    var first := Dots(name) >= c.ndots;
    var order := Order(name, c.domains, first);
    if m.Ask? {
      assert Coherent(m.search, first) && Place(m.search, first) == 0;
      PlayFollows(m.search, first, script);
      assert order == [m.name] + order[1..];
    } else {
      assert script[..0] == [] && Timeouts([]) == 0;
    }
  }

  /** A single query is asked for once, and its reply goes to the caller as it is. */
  lemma SingleQuery(c: Channel, name: string, alias: Alias, copies: bool, allocates: bool, joins: bool, script: seq<Answered>)
    requires name != "" && SingleDomain(c, name, alias, copies).Only? && script != []
    ensures var p := Whole(Begin(c, name, alias, copies, allocates, joins), script);
            var r := script[0].reply;
            p == Played([SingleDomain(c, name, alias, copies).name], Some(Final(r.status, r.timeouts, r.answer)))
  {
  }

  /** Dots counts the dots. */
  lemma {:induction false} DotsCounted(name: string)
    ensures Dots(name) == multiset(name)['.']
  {
    if name != "" {
      DotsCounted(name[1..]);
      assert name == [name[0]] + name[1..];
    }
  }

  /**
   * Exactly when the domains are gone through, and which name is asked for when they are not: a name that ends in a dot
   * as it is; a name without a dot by its alias, if it has one; any other as it is when there is nothing to search.
   */
  lemma SingleIff(c: Channel, name: string, alias: Alias, copies: bool)
    requires name != ""
    ensures var single := SingleDomain(c, name, alias, copies);
            var fixed := name[|name| - 1] == '.';
            var aliased := '.' !in name && !c.noAliases && !alias.NoAlias?;
            && (single == Several <==> !fixed && !aliased && !c.noSearch && |c.domains| > 0)
            && (single.Only? <==> single != Several && copies && (aliased ==> alias.Alias?))
            && (single.Only? ==> single.name == if aliased then alias.name else name)
            && (single.Error? ==> single.status == if aliased && alias.AliasError? then alias.status else NoMem)
  {
    DotsCounted(name);
    assert '.' in multiset(name) <==> '.' in name;
  }

  // ---------------------------------------------------------------- what is reported

  /** The first reply that is not soft, or the number of replies. */
  function FirstHard(script: seq<Answered>): (n: nat)
    ensures n <= |script|
  {
    if script == [] then 0 else
    var s := script[0].reply.status;
    if s != NoData && s != ServFail && s != NotFound then 0 else 1 + FirstHard(script[1..])
  }

  /** When every name has had a soft reply, the one for the name as it stands decides, unless some name exists without data. */
  function Verdict(script: seq<Answered>, place: nat): Status
    requires place < |script|
  {
    var asIs := script[place].reply.status;
    if asIs == NotFound && exists i :: 0 <= i < |script| && script[i].reply.status == NoData then NoData else asIs
  }

  predicate MemoryLasts(script: seq<Answered>) {
    forall i :: 0 <= i < |script| ==> script[i].joins
  }

  /** The replies given before the search came to stand where it stands. */
  predicate Remembers(s: Search, asIsFirst: bool, past: seq<Answered>)
    requires Coherent(s, asIsFirst)
  {
    && |past| == Place(s, asIsFirst) && FirstHard(past) == |past|
    && (s.everGotNoData <==> exists i :: 0 <= i < |past| && past[i].reply.status == NoData)
    && (s.statusAsIs.Some? ==> past != [] && s.statusAsIs.value == past[0].reply.status)
  }

  lemma {:induction false} FirstHardAppend(a: seq<Answered>, b: seq<Answered>)
    requires FirstHard(a) == |a|
    ensures FirstHard(a + b) == |a| + FirstHard(b)
    decreases |a|
  {
    if a == [] {
      assert a + b == b;
    } else {
      assert (a + b)[1..] == a[1..] + b;
      FirstHardAppend(a[1..], b);
    }
  }

  /** How a search ends, said of its replies alone. */
  predicate EndsAs(script: seq<Answered>, names: nat, asIsPlace: nat, p: Played, before: nat) {
    && p.final.Some? && |p.asked| + before < names <= |script|
    && var k := FirstHard(script[..names]);
       if k < names then
         |p.asked| + before == k && p.final.value.status == script[k].reply.status
         && p.final.value.answer == script[k].reply.answer
       else
         |p.asked| + before == names - 1 && asIsPlace < names
         && p.final.value.status == Verdict(script[..names], asIsPlace) && p.final.value.answer == []
  }

  lemma {:induction false} PlayEnds(s: Search, asIsFirst: bool, past: seq<Answered>, script: seq<Answered>)
    requires Coherent(s, asIsFirst) && Remembers(s, asIsFirst, past)
    requires |past| + |script| >= |OrderOf(s, asIsFirst)| && MemoryLasts(script)
    ensures EndsAs(past + script, |OrderOf(s, asIsFirst)|, if asIsFirst then 0 else |s.domains|, Play(s, script), |past|)
    decreases |script|
  {
    var names, place := |OrderOf(s, asIsFirst)|, Place(s, asIsFirst);
    var all := past + script;
    OneReply(s, asIsFirst, Reply(Success, 0, []), true);
    var r := script[0];
    OneReply(s, asIsFirst, r.reply, r.joins);
    var m := OnReply(s, r.reply, r.joins);
    var upTo := past + [r];
    if !Soft(r.reply.status) {
      HardReply(past, script, names);
    } else {
      FirstHardAppend(past, [r]);
      assert FirstHard([r]) == 1 by { assert [r][1..] == []; }
      if m.Ask? {
        assert upTo + script[1..] == all;
        NextRemembers(s, asIsFirst, past, r);
        PlayEnds(m.search, asIsFirst, upTo, script[1..]);
      } else {
        assert all[..names] == upTo;
        LastReply(s, asIsFirst, past, r);
      }
    }
  }

  lemma HardReply(past: seq<Answered>, script: seq<Answered>, names: nat)
    requires FirstHard(past) == |past| && script != [] && |past| < names <= |past| + |script| && !Soft(script[0].reply.status)
    ensures FirstHard((past + script)[..names]) == |past|
  {
    var tail := script[..names - |past|];
    assert (past + script)[..names] == past + tail;
    FirstHardAppend(past, tail);
  }

  lemma NextRemembers(s: Search, asIsFirst: bool, past: seq<Answered>, r: Answered)
    requires Coherent(s, asIsFirst) && Remembers(s, asIsFirst, past) && Soft(r.reply.status)
    requires OnReply(s, r.reply, r.joins).Ask?
    ensures var t := OnReply(s, r.reply, r.joins).search;
            Coherent(t, asIsFirst) && Remembers(t, asIsFirst, past + [r])
  {
    OneReply(s, asIsFirst, r.reply, r.joins);
    FirstHardAppend(past, [r]);
    assert FirstHard([r]) == 1 by { assert [r][1..] == []; }
    NoDataAppend(past, r);
  }

  lemma NoDataAppend(past: seq<Answered>, r: Answered)
    ensures (exists i :: 0 <= i < |past + [r]| && (past + [r])[i].reply.status == NoData)
            <==> r.reply.status == NoData || exists i :: 0 <= i < |past| && past[i].reply.status == NoData
  {
    if r.reply.status == NoData {
      assert (past + [r])[|past|].reply.status == NoData;
    }
    if i :| 0 <= i < |past| && past[i].reply.status == NoData {
      assert (past + [r])[i].reply.status == NoData;
    }
  }

  lemma LastReply(s: Search, asIsFirst: bool, past: seq<Answered>, r: Answered)
    requires Coherent(s, asIsFirst) && Remembers(s, asIsFirst, past) && Soft(r.reply.status) && r.joins
    requires OnReply(s, r.reply, r.joins).Report?
    ensures |past| + 1 == |OrderOf(s, asIsFirst)|
    ensures var m := OnReply(s, r.reply, r.joins);
            m.answer == [] && m.status == Verdict(past + [r], if asIsFirst then 0 else |s.domains|)
  {
    OneReply(s, asIsFirst, r.reply, r.joins);
    NoDataAppend(past, r);
  }

  /**
   * What a search reports when every name has its reply and memory lasts: the first reply that is not soft, as it
   * is; if all are soft, what the name as it stands got, or NoData if that was NotFound and another name had no data.
   */
  lemma SearchReports(c: Channel, name: string, alias: Alias, copies: bool, script: seq<Answered>)
    requires name != "" && SingleDomain(c, name, alias, copies) == Several && MemoryLasts(script)
    requires |script| > |c.domains|
    ensures var first := Dots(name) >= c.ndots;
            var p := Whole(Begin(c, name, alias, copies, true, true), script);
            && p.asked != []
            && EndsAs(script, |c.domains| + 1, if first then 0 else |c.domains|, Played(p.asked[1..], p.final), 0)
  {
    var first := Dots(name) >= c.ndots;
    var m := Begin(c, name, alias, copies, true, true);
    var p := Play(m.search, script);
    assert ([m.name] + p.asked)[1..] == p.asked;
    assert [] + script == script;
    PlayEnds(m.search, first, [], script);
  }

  // ---------------------------------------------------------------- the record that the callback updates

  class SearchQuery {
    const name: string
    const domains: seq<string>
    var nextDomain: nat
    var tryingAsIs: bool
    var statusAsIs: Option<Status>
    var timeouts: nat
    var everGotNoData: bool

    function Value(): Search
      reads this
    {
      Search(name, domains, nextDomain, tryingAsIs, statusAsIs, timeouts, everGotNoData)
    }

    constructor (name: string, domains: seq<string>, nextDomain: nat, tryingAsIs: bool)
      ensures Value() == Search(name, domains, nextDomain, tryingAsIs, None, 0, false)
    {
      this.name, this.domains, this.nextDomain, this.tryingAsIs := name, domains, nextDomain, tryingAsIs;
      statusAsIs, timeouts, everGotNoData := None, 0, false;
    }

    /** search_callback: the next name to ask for, or what to report. */
    method Callback(r: Reply, joins: bool) returns (ask: Option<string>, report: Option<Final>)
      modifies this
      ensures match OnReply(old(Value()), r, joins)
              case Ask(n, s) => ask == Some(n) && report == None && Value() == s
              case Report(status, t, answer) => ask == None && report == Some(Final(status, t, answer))
    {
      timeouts := timeouts + r.timeouts;
      if r.status != NoData && r.status != ServFail && r.status != NotFound {
        return None, Some(Final(r.status, timeouts, r.answer));
      }
      if tryingAsIs {
        statusAsIs := Some(r.status);
      }
      if r.status == NoData {
        everGotNoData := true;
      }
      if nextDomain < |domains| {
        if !joins {
          return None, Some(Final(NoMem, timeouts, []));
        }
        ask := Some(Cat(name, domains[nextDomain]));
        tryingAsIs := false;
        nextDomain := nextDomain + 1;
        return ask, None;
      }
      if statusAsIs == None {
        tryingAsIs := true;
        return Some(name), None;
      }
      var status := if statusAsIs == Some(NotFound) && everGotNoData then NoData else statusAsIs.value;
      return None, Some(Final(status, timeouts, []));
    }
  }
}
