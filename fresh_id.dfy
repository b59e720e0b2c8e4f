/**
 * Drawing a fresh identifier. The server asks `uuid/v4` for random ids in a
 * do-while loop until it gets one that is not yet a key of the dictionary
 * it is about to insert into (src/server.ts:54-56 for peers, :68-70 for
 * channels). The random generator is outside the model: `draws` is the
 * sequence of ids it would return, in order, and `HasFresh` is the
 * assumption that it eventually returns an unused one.
 */
module FreshIds {

  /** Some candidate id is not yet taken. */
  predicate HasFresh(draws: seq<string>, taken: set<string>)
  {
    exists i :: 0 <= i < |draws| && draws[i] !in taken
  }

  /** A candidate at position `i` that is not taken witnesses `HasFresh`. */
  lemma HasFreshAt(draws: seq<string>, taken: set<string>, i: nat)
    requires i < |draws| && draws[i] !in taken
    ensures HasFresh(draws, taken)
  {
  }

  /** The position of the first candidate id that is not taken. */
  function FirstFreshIndex(draws: seq<string>, taken: set<string>): (k: nat)
    requires HasFresh(draws, taken)
    ensures k < |draws| && draws[k] !in taken
    ensures forall j :: 0 <= j < k ==> draws[j] in taken
    decreases |draws|
  {
    if draws[0] !in taken then 0
    else
      assert HasFresh(draws[1..], taken) by {
        var i :| 0 <= i < |draws| && draws[i] !in taken;
        assert draws[1..][i - 1] == draws[i];
      }
      1 + FirstFreshIndex(draws[1..], taken)
  }

  /**
   * The do-while loop: draw, and draw again while the id is taken.
   * It returns the first fresh candidate.
   */
  method DrawFresh(draws: seq<string>, taken: set<string>) returns (id: string)
    requires HasFresh(draws, taken)
    ensures id !in taken
    ensures id == draws[FirstFreshIndex(draws, taken)]
  {
    ghost var k := FirstFreshIndex(draws, taken);
    var i := 0;
    id := draws[i];
    while id in taken
      invariant 0 <= i <= k && id == draws[i]
      invariant forall j :: 0 <= j < i ==> draws[j] in taken
      decreases k - i
    {
      i := i + 1;
      id := draws[i];
    }
  }
}
