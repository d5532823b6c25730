/** The search box's `input` listener: each service card is shown exactly when its
    lower-cased title or description contains the lower-cased search term. */
module Search {
  import opened Style

  /** A service card's `h3` title and `p` description. */
  datatype Card = Card(title: string, description: string)

  /** `toLowerCase` on the ASCII letters. */
  function LowerChar(c: char): char {
    if 'A' <= c <= 'Z' then (c as int - 'A' as int + 'a' as int) as char else c
  }

  function Lower(s: string): string {
    seq(|s|, k requires 0 <= k < |s| => LowerChar(s[k]))
  }

  /** `term` occurs in `s` starting at `at`. */
  predicate OccursAt(s: string, term: string, at: nat) {
    at + |term| <= |s| && s[at..at + |term|] == term
  }

  /** `String.prototype.includes`, by scanning from the left. */
  function Includes(s: string, term: string): bool
    decreases |s|
  {
    if |term| > |s| then false
    else if s[..|term|] == term then true
    else s != [] && Includes(s[1..], term)
  }

  lemma {:induction false} IncludesMeansOccurs(s: string, term: string)
    ensures Includes(s, term) <==> exists at :: OccursAt(s, term, at)
    decreases |s|
  {
    if |term| > |s| {
    } else if s[..|term|] == term {
      assert OccursAt(s, term, 0);
    } else {
      assert s != [];
      IncludesMeansOccurs(s[1..], term);
      if Includes(s[1..], term) {
        var at: nat :| OccursAt(s[1..], term, at);
        assert s[at + 1..at + 1 + |term|] == s[1..][at..at + |term|];
        assert OccursAt(s, term, at + 1);
      }
      if exists at :: OccursAt(s, term, at) {
        var at: nat :| OccursAt(s, term, at);
        assert at != 0;
        assert s[1..][at - 1..at - 1 + |term|] == s[at..at + |term|];
        assert OccursAt(s[1..], term, at - 1);
      }
    }
  }

  predicate Matches(card: Card, input: string) {
    var term := Lower(input);
    Includes(Lower(card.title), term) || Includes(Lower(card.description), term)
  }

  /** Lower-casing twice is lower-casing once, so the filter ignores the case of the input. */
  lemma LowerIdempotent(s: string)
    ensures Lower(Lower(s)) == Lower(s)
  {
  }

  lemma MatchIgnoresCase(card: Card, input: string)
    ensures Matches(card, Lower(input)) == Matches(card, input)
  {
    LowerIdempotent(input);
  }

  /** An empty search shows every card. */
  lemma EmptySearchShowsAll(card: Card)
    ensures Matches(card, "")
  {
    IncludesMeansOccurs(Lower(card.title), "");
    assert OccursAt(Lower(card.title), "", 0);
  }

  /** A card is shown exactly when the lower-cased term occurs in its lower-cased title
      or description. */
  lemma MatchMeansOccurrence(card: Card, input: string)
    ensures Matches(card, input) <==>
      (exists at :: OccursAt(Lower(card.title), Lower(input), at)) ||
      (exists at :: OccursAt(Lower(card.description), Lower(input), at))
  {
    IncludesMeansOccurs(Lower(card.title), Lower(input));
    IncludesMeansOccurs(Lower(card.description), Lower(input));
  }

  /** Sets each card's `display`, every card decided on its own. */
  method Filter(cards: seq<Card>, display: array<Display>, input: string)
    requires display.Length == |cards|
    modifies display
    ensures forall k :: 0 <= k < |cards| ==>
      display[k] == if Matches(cards[k], input) then DisplayBlock else DisplayNone
  {
    var term := Lower(input);
    for k := 0 to |cards|
      invariant forall m :: 0 <= m < k ==>
        display[m] == if Matches(cards[m], input) then DisplayBlock else DisplayNone
    {
      var title := Lower(cards[k].title);
      var description := Lower(cards[k].description);
      if Includes(title, term) || Includes(description, term) {
        display[k] := DisplayBlock;
      } else {
        display[k] := DisplayNone;
      }
    }
  }
}
