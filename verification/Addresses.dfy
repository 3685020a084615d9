/**
 The addresses that services have at the same time: what the assigner's log says about them, as text too.
 */
module Addresses {
  import opened Sequences
  import opened Core
  import opened ClusterIP
  import D = Dns

  // ---- dotted decimal ----

  function Digit(n: nat): char
    requires n < 10
  {
    '0' + n as char
  }

  function Decimal(n: nat): (s: string)
    ensures s != [] && '.' !in s
  {
    (if n < 10 then [] else Decimal(n / 10)) + [Digit(n % 10)]
  }

  lemma DecimalParts(n: nat)
    ensures var s := Decimal(n);
      s[|s| - 1] == Digit(n % 10) && s[..|s| - 1] == if n < 10 then [] else Decimal(n / 10)
  {
  }

  /** An address the way it is recorded and sent to the nodes. */
  function Text(ip: IP): string {
    D.Join([Decimal(ip.a), Decimal(ip.b), Decimal(ip.c), Decimal(ip.d)], '.')
  }

  // ---- and back ----

  function Digits(s: string): Option<nat>
  {
    if s == [] then None
    else if |s| == 1 then DigitOf(s[0])
    else
      match (Digits(s[..|s| - 1]), DigitOf(s[|s| - 1]))
      case (Some(n), Some(d)) => Some(10 * n + d)
      case _ => None
  }

  function DigitOf(c: char): Option<nat> {
    if '0' <= c <= '9' then Some((c - '0') as nat) else None
  }

  /** Four decimals below 256, from the first octet to the last. */
  function Parse(s: string): Option<IP> {
    var parts := D.Split(s, '.');
    if |parts| != 4 then None
    else
      match (Digits(parts[0]), Digits(parts[1]), Digits(parts[2]), Digits(parts[3]))
      case (Some(a), Some(b), Some(c), Some(d)) => if a < 256 && b < 256 && c < 256 && d < 256 then Some(IP(a, b, c, d)) else None
      case _ => None
  }

  lemma {:induction false} DigitsOfDecimal(n: nat)
    ensures Digits(Decimal(n)) == Some(n)
  {
    hide Decimal;
    DecimalParts(n);
    if n < 10 {
      assert Decimal(n) == [Digit(n)];
    } else {
      DigitsOfDecimal(n / 10);
    }
  }

  /** What is recorded and sent is read back as the address. */
  lemma ParseText(ip: IP)
    ensures Parse(Text(ip)) == Some(ip)
  {
    hide Decimal, Digits;
    var a, b, c, d := Decimal(ip.a), Decimal(ip.b), Decimal(ip.c), Decimal(ip.d);
    D.SplitJoin([a, b, c, d], '.');
    DigitsOfDecimal(ip.a);
    DigitsOfDecimal(ip.b);
    DigitsOfDecimal(ip.c);
    DigitsOfDecimal(ip.d);
  }

  /** Different addresses have different texts. */
  lemma TextDiffers(i: IP, j: IP)
    requires Text(i) == Text(j)
    ensures i == j
  {
    ParseText(i);
    ParseText(j);
  }

  // ---- the assigner's log ----

  lemma {:induction false} IssuedGrows(before: seq<Event>, es: seq<Event>)
    requires before <= es
    ensures Issued(before) <= Issued(es)
  {
    hide After, Answer;
    if |before| < |es| {
      IssuedGrows(before, es[..|es| - 1]);
    } else {
      assert before == es;
    }
  }

  /** An address the assigner answers with is not among those it issued before. */
  lemma AnswerIsNew(es: seq<Event>, e: Event, ip: IP)
    requires Answer(After(es), e) == Some(ip)
    ensures Issued(es + [e]) == Issued(es) + [Value(ip)] && Value(ip) !in Issued(es)
  {
    hide After, Answer, Value;
    assert (es + [e])[..|es|] == es;
    NeverTwice(es + [e]);
    var issued := Issued(es + [e]);
    assert issued == Issued(es) + [Value(ip)];
    forall i | 0 <= i < |Issued(es)| ensures Issued(es)[i] < Value(ip) {
      assert issued[i] == Issued(es)[i];
    }
  }

  // ---- services and their addresses ----

  /** Every service has an address from the log, and no two have the same. */
  ghost predicate Spread(services: map<string, Service>, log: seq<Event>) {
    && (forall k | k in services :: services[k].clusterIP.Some? && Value(services[k].clusterIP.value) in Issued(log))
    && (forall k, l | k in services && l in services && services[k].clusterIP == services[l].clusterIP :: k == l)
  }

  lemma SpreadLater(services: map<string, Service>, log: seq<Event>, later: seq<Event>)
    requires Spread(services, log) && log <= later
    ensures Spread(services, later)
  {
    hide Issued, Value;
    IssuedGrows(log, later);
  }

  /** A service with the assigner's next answer joins. */
  lemma SpreadAdd(services: map<string, Service>, log: seq<Event>, e: Event, svc: Service)
    requires Spread(services, log)
    requires svc.clusterIP.Some? && svc.clusterIP == Answer(After(log), e)
    ensures Spread(services[svc.name := svc], log + [e])
  {
    hide Issued, Value, After, Answer;
    AnswerIsNew(log, e, svc.clusterIP.value);
  }
}
