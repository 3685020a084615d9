/**
 The assignment of service addresses (pkg/apiserver/service/cluster_ip.go) through failed writes and restarts.
 */
module ClusterIP {
  import opened Sequences
  import opened Core

  function Value(ip: IP): nat {
    ((ip.a * 256 + ip.b) * 256 + ip.c) * 256 + ip.d
  }

  /** The first address of 240.0.0.0/4 (section 3.1 of RFC 4632) and the last address there is. */
  const FIRST := 0xF000_0000
  const LAST := 0xFFFF_FFFF

  function Plus1(x: octet): octet { (x + 1) % 256 }

  /** The address with the carry rippled through the octets; None after the last. */
  function Successor(ip: IP): Option<IP> {
    if Plus1(ip.d) != 0 then Some(IP(ip.a, ip.b, ip.c, Plus1(ip.d)))
    else if Plus1(ip.c) != 0 then Some(IP(ip.a, ip.b, Plus1(ip.c), 0))
    else if Plus1(ip.b) != 0 then Some(IP(ip.a, Plus1(ip.b), 0, 0))
    else if Plus1(ip.a) != 0 then Some(IP(Plus1(ip.a), 0, 0, 0))
    else None
  }

  /** The four leading bits are set. */
  predicate InRange(ip: IP) {
    ip.a / 16 == 15
  }

  /** The octet carry is the successor on 32-bit values. */
  lemma SuccessorIsPlusOne(ip: IP)
    ensures Successor(ip).None? <==> Value(ip) == LAST
    ensures Successor(ip).Some? ==> Value(Successor(ip).value) == Value(ip) + 1
    ensures InRange(ip) <==> FIRST <= Value(ip)
    ensures Value(ip) <= LAST
  {
  }

  // ---- the assigner ----

  /** The current address in memory and the one in etcd. */
  datatype Assigner = Assigner(current: IP, stored: Option<IP>)

  datatype Event = Next(put: bool) | Restart

  function Start(): Assigner {
    Assigner(IP(240, 0, 0, 0), None)
  }

  function Step(s: Assigner, e: Event): Assigner {
    match e
    case Next(put) =>
      var next := Successor(s.current);
      if next.None? || !InRange(next.value) then s
      else Assigner(next.value, if put then next else s.stored)
    case Restart =>
      Assigner(if s.stored.Some? then s.stored.value else Start().current, s.stored)
  }

  /** The address a caller gets. */
  function Answer(s: Assigner, e: Event): Option<IP> {
    match e
    case Next(put) =>
      var next := Successor(s.current);
      if put && next.Some? && InRange(next.value) then next else None
    case Restart => None
  }

  class ClusterIPAssigner {
    var currentIP: IP
    /** The value under /IPAssigner in etcd. */
    var stored: Option<IP>

    function View(): Assigner
      reads this
    {
      Assigner(currentIP, stored)
    }

    constructor ()
      ensures View() == Start()
    {
      currentIP, stored := IP(240, 0, 0, 0), None;
    }

    /** None is the error; `put` says whether the write to etcd succeeds. */
    method NextClusterIP(put: bool) returns (r: Option<IP>)
      modifies this
      ensures View() == Step(old(View()), Next(put)) && r == Answer(old(View()), Next(put))
    {
      var newIP: IP;
      var ip := currentIP;
      if Plus1(ip.d) != 0 {
        newIP := IP(ip.a, ip.b, ip.c, Plus1(ip.d));
      } else if Plus1(ip.c) != 0 {
        newIP := IP(ip.a, ip.b, Plus1(ip.c), 0);
      } else if Plus1(ip.b) != 0 {
        newIP := IP(ip.a, Plus1(ip.b), 0, 0);
      } else if Plus1(ip.a) != 0 {
        newIP := IP(Plus1(ip.a), 0, 0, 0);
      } else {
        return None;
      }
      if !InRange(newIP) {
        return None;
      }
      currentIP := newIP;
      if !put {
        return None;
      }
      stored := Some(newIP);
      r := Some(currentIP);
    }

    /** A new process, followed by recovery from etcd. */
    method Recover()
      modifies this
      ensures View() == Step(old(View()), Restart)
    {
      currentIP := IP(240, 0, 0, 0);
      if stored.Some? {
        currentIP := stored.value;
      }
    }
  }

  // ---- runs ----

  function After(es: seq<Event>): Assigner {
    if es == [] then Start() else Step(After(es[..|es| - 1]), es[|es| - 1])
  }

  /** The values handed out. */
  function Issued(es: seq<Event>): seq<nat> {
    if es == [] then []
    else
      var answer := Answer(After(es[..|es| - 1]), es[|es| - 1]);
      Issued(es[..|es| - 1]) + if answer.Some? then [Value(answer.value)] else []
  }

  lemma StepValues(s: Assigner, put: bool)
    requires FIRST <= Value(s.current)
    ensures var r, answer := Step(s, Next(put)), Answer(s, Next(put));
      && Value(s.current) <= LAST
      && (if Value(s.current) == LAST then r == s && answer == None
          else Value(r.current) == Value(s.current) + 1 &&
               if put then answer == Some(r.current) && r.stored == answer else answer == None && r.stored == s.stored)
  {
    hide Value, Successor, InRange;
    SuccessorIsPlusOne(s.current);
    var next := Successor(s.current);
    if next.Some? {
      SuccessorIsPlusOne(next.value);
    }
  }

  lemma StartValue()
    ensures Value(Start().current) == FIRST && Start().stored == None
  {
  }

  /** Whatever writes fail and whenever the server restarts, the issued addresses strictly increase, so none is
      ever issued twice, and all lie in the range. */
  lemma {:induction false} NeverTwice(es: seq<Event>)
    ensures var issued, s := Issued(es), After(es);
      && (forall i, j | 0 <= i < j < |issued| :: issued[i] < issued[j])
      && (forall i | 0 <= i < |issued| :: FIRST < issued[i] <= LAST)
      && FIRST <= Value(s.current)
      && (s.stored.Some? ==> Value(s.stored.value) <= Value(s.current))
      && (issued == [] <==> s.stored.None?)
      && (issued != [] ==> issued[|issued| - 1] == Value(s.stored.value))
  {
    hide Value, Successor, InRange, Start;
    StartValue();
    if es != [] {
      NeverTwice(es[..|es| - 1]);
      match es[|es| - 1]
      case Next(put) => StepValues(After(es[..|es| - 1]), put);
      case Restart =>
    }
  }

  function Requests(es: seq<Event>): nat {
    if es == [] then 0 else Requests(es[..|es| - 1]) + if es[|es| - 1].Next? then 1 else 0
  }

  /** When no write fails, the i-th request gets the i-th address after the first, restarts or not, and exactly
      2^28 - 1 requests are served before every further one fails. */
  lemma {:induction false} AllServed(es: seq<Event>)
    requires forall e | e in es :: e == Next(true) || e == Restart
    ensures var issued, s := Issued(es), After(es);
      && |issued| == (if Requests(es) <= 0x0FFF_FFFF then Requests(es) else 0x0FFF_FFFF)
      && (forall i | 0 <= i < |issued| :: issued[i] == FIRST + i + 1)
      && Value(s.current) == FIRST + |issued|
      && (s.stored.Some? ==> s.stored.value == s.current)
      && (s.stored.None? ==> s.current == Start().current)
  {
    hide Value, Successor, InRange, Start;
    StartValue();
    if es != [] {
      var before := es[..|es| - 1];
      assert forall e | e in before :: e in es;
      assert es[|es| - 1] in es;
      AllServed(before);
      match es[|es| - 1]
      case Next(put) => StepValues(After(before), put);
      case Restart =>
    }
  }
}
