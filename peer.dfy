/**
 * The client-side listener registry of src/peer.ts: `Peer.prototype.on`
 * and `Peer.prototype.removeListener` keep, per peer event, the list of
 * listeners in `_peerListeners`, and `stringifyMaybePort` renders the
 * optional port of the server's address.
 */
module PeerClient {
  import opened Shared

  /** The `PeerEvent` union of src/types/peer.ts. */
  datatype PeerEvent = ErrorEvent | ChannelEvent

  function PeerEventName(e: PeerEvent): string
  {
    match e
    case ErrorEvent => "error"
    case ChannelEvent => "channel"
  }

  /** The test of `on` and `removeListener`: the name belongs to the `PeerEvent` union. */
  predicate IsPeerEvent(event: string)
    ensures IsPeerEvent(event) <==> exists e :: PeerEventName(e) == event
  {
    assert PeerEventName(ErrorEvent) == "error" && PeerEventName(ChannelEvent) == "channel";
    event == "error" || event == "channel"
  }

  function NoSuchEventText(event: string): string
  {
    "no such event: " + event
  }

  /** `R.append(fn)(list)`: a new list with `fn` added at the end. */
  function Append<L>(fn: L, list: seq<L>): (r: seq<L>)
    ensures |r| == |list| + 1
    ensures r[..|list|] == list && r[|list|] == fn
  {
    list + [fn]
  }

  /**
   * `R.without([fn])(list)`: a new list without any occurrence of `fn`.
   * Ramda compares functions by identity, which is Dafny's `==` on `L`.
   * Every other listener keeps its number of occurrences.
   */
  function Without<L(==)>(fn: L, list: seq<L>): (r: seq<L>)
    ensures fn !in r
    ensures multiset(r) == multiset(list)[fn := 0]
    ensures |r| <= |list|
  {
    if list == [] then []
    else
      assert list == [list[0]] + list[1..];
      if list[0] == fn then Without(fn, list[1..])
      else [list[0]] + Without(fn, list[1..])
  }

  /** `r` is `s` with some elements dropped and the rest kept in order. */
  predicate IsSubsequence<L(==)>(r: seq<L>, s: seq<L>)
    decreases |s|
  {
    if r == [] then true
    else if s == [] then false
    else (r[0] == s[0] && IsSubsequence(r[1..], s[1..])) || IsSubsequence(r, s[1..])
  }

  /** The listeners that survive `Without` keep their relative order. */
  lemma {:induction false} WithoutKeepsOrder<L>(fn: L, list: seq<L>)
    ensures IsSubsequence(Without(fn, list), list)
  {
    if list != [] {
      WithoutKeepsOrder(fn, list[1..]);
      var rest := Without(fn, list[1..]);
      if list[0] != fn {
        assert Without(fn, list) == [list[0]] + rest;
        assert ([list[0]] + rest)[1..] == rest;
      } else if rest != [] {
        assert Without(fn, list) == rest;
      }
    }
  }

  /** Removing a listener that is not registered leaves the list as it is. */
  lemma {:induction false} WithoutAbsent<L>(fn: L, list: seq<L>)
    requires fn !in list
    ensures Without(fn, list) == list
  {
    if list != [] {
      assert fn !in list[1..];
      WithoutAbsent(fn, list[1..]);
      assert list == [list[0]] + list[1..];
    }
  }

  /** Removing twice is removing once. */
  lemma WithoutIdempotent<L>(fn: L, list: seq<L>)
    ensures Without(fn, Without(fn, list)) == Without(fn, list)
  {
    WithoutAbsent(fn, Without(fn, list));
  }

  /** Removal distributes over concatenation. */
  lemma {:induction false} WithoutConcat<L>(fn: L, a: seq<L>, b: seq<L>)
    ensures Without(fn, a + b) == Without(fn, a) + Without(fn, b)
  {
    if a != [] {
      assert (a + b)[0] == a[0];
      assert (a + b)[1..] == a[1..] + b;
      WithoutConcat(fn, a[1..], b);
    } else {
      assert a + b == b;
    }
  }

  /**
   * `removeListener(e, fn)` after `on(e, fn)` takes away every copy of
   * `fn`, the new one included; when `fn` was not registered before, the
   * list is back to what it was.
   */
  lemma WithoutUndoesAppend<L>(fn: L, list: seq<L>)
    ensures Without(fn, Append(fn, list)) == Without(fn, list)
    ensures fn !in list ==> Without(fn, Append(fn, list)) == list
  {
    WithoutConcat(fn, list, [fn]);
    assert [fn] == [fn] + [];
    if fn !in list {
      WithoutAbsent(fn, list);
    }
  }

  /**
   * The listener registry of a `Peer`. The constructor of src/peer.ts never
   * initialises `_peerListeners`; `Valid` is the assumption that both
   * event names have a list.
   */
  class Peer<L(==)> {
    var peerListeners: map<string, seq<L>>

    ghost predicate Valid()
      reads this
    {
      "error" in peerListeners && "channel" in peerListeners
    }

    constructor (initial: map<string, seq<L>>)
      requires "error" in initial && "channel" in initial
      ensures Valid() && peerListeners == initial
    {
      peerListeners := initial;
    }

    /** `on(event, fn)`: reject an unknown event name, else append `fn`. */
    method On(event: string, fn: L) returns (outcome: Outcome)
      requires Valid()
      modifies this
      ensures Valid()
      ensures !IsPeerEvent(event) ==>
        outcome == Threw(NewError(NoSuchEventText(event))) && peerListeners == old(peerListeners)
      ensures IsPeerEvent(event) ==>
        && outcome == Returned
        && peerListeners == old(peerListeners)[event := Append(fn, old(peerListeners)[event])]
      ensures forall e :: e in old(peerListeners) && e != event ==>
        e in peerListeners && peerListeners[e] == old(peerListeners)[e]
    {
      if event != "error" && event != "channel" {
        outcome := Threw(NewError(NoSuchEventText(event)));
        return;
      }
      peerListeners := peerListeners[event := Append(fn, peerListeners[event])];
      outcome := Returned;
    }

    /** `removeListener(event, fn)`: reject an unknown event name, else drop every `fn`. */
    method RemoveListener(event: string, fn: L) returns (outcome: Outcome)
      requires Valid()
      modifies this
      ensures Valid()
      ensures !IsPeerEvent(event) ==>
        outcome == Threw(NewError(NoSuchEventText(event))) && peerListeners == old(peerListeners)
      ensures IsPeerEvent(event) ==>
        && outcome == Returned
        && peerListeners == old(peerListeners)[event := Without(fn, old(peerListeners)[event])]
      ensures forall e :: e in old(peerListeners) && e != event ==>
        e in peerListeners && peerListeners[e] == old(peerListeners)[e]
    {
      if event != "error" && event != "channel" {
        outcome := Threw(NewError(NoSuchEventText(event)));
        return;
      }
      peerListeners := peerListeners[event := Without(fn, peerListeners[event])];
      outcome := Returned;
    }
  }

  predicate IsDigit(c: char)
  {
    '0' <= c <= '9'
  }

  predicate AllDigits(s: string)
  {
    forall i :: 0 <= i < |s| ==> IsDigit(s[i])
  }

  function DigitChar(d: nat): (c: char)
    requires d < 10
    ensures IsDigit(c)
  {
    "0123456789"[d]
  }

  function DigitValue(c: char): (d: nat)
    requires IsDigit(c)
    ensures d < 10
  {
    (c as int - '0' as int) as nat
  }

  /**
   * The decimal rendering of a natural number, as `${n}` gives it for
   * integers below 10^21 (from there on JavaScript uses exponent notation).
   */
  function DecimalString(n: nat): (s: string)
    ensures |s| >= 1 && AllDigits(s)
    ensures (s[0] == '0') == (n == 0)
    decreases n
  {
    if n < 10 then [DigitChar(n)]
    else DecimalString(n / 10) + [DigitChar(n % 10)]
  }

  /** The number a string of decimal digits denotes. */
  function DecimalValue(s: string): nat
    requires AllDigits(s)
  {
    if s == [] then 0
    else DecimalValue(s[..|s| - 1]) * 10 + DigitValue(s[|s| - 1])
  }

  lemma {:induction false} DecimalRoundTrip(n: nat)
    ensures DecimalValue(DecimalString(n)) == n
    decreases n
  {
    var s := DecimalString(n);
    if n < 10 {
      assert DigitValue(DigitChar(n)) == n;
    } else {
      DecimalRoundTrip(n / 10);
      assert s[..|s| - 1] == DecimalString(n / 10);
      assert DigitValue(DigitChar(n % 10)) == n % 10;
    }
  }

  /**
   * `stringifyMaybePort(port)`: nothing for an absent port, otherwise a
   * colon and the port's decimal digits, without leading zeros.
   */
  function StringifyMaybePort(port: Option<nat>): (r: string)
    ensures port.None? ==> r == ""
    ensures port.Some? ==>
      && |r| >= 2 && r[0] == ':' && AllDigits(r[1..])
      && DecimalValue(r[1..]) == port.value
      && (r[1] == '0' ==> r == ":0")
  {
    match port
    case None => ""
    case Some(p) =>
      DecimalRoundTrip(p);
      assert (":" + DecimalString(p))[1..] == DecimalString(p);
      ":" + DecimalString(p)
  }

  /** Different ports give different strings, and no port gives the empty one. */
  lemma StringifyMaybePortInjective(p: Option<nat>, q: Option<nat>)
    ensures StringifyMaybePort(p) == StringifyMaybePort(q) <==> p == q
  {
    if StringifyMaybePort(p) == StringifyMaybePort(q) && p.Some? && q.Some? {
      assert DecimalValue(StringifyMaybePort(p)[1..]) == p.value;
    }
  }
}
