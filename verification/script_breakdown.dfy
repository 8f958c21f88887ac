/**
 * The script breakdown of the older server (server/src/ai_service.py,
 * `get_script_breakdown`). The named-entity recogniser, the random draws and the
 * float estimate of shoot days are inputs.
 */
module ScriptBreakdown {
  import opened StringOrder
  import Numerals

  /** The payload the server returns and the line producer page displays. */
  datatype Breakdown = Breakdown(
    locationCount: int,
    characterCount: int,
    estimatedShootDays: int,
    complexityScore: int,
    locations: seq<string>,
    characters: seq<string>)

  /** A recognised entity: its label (`label_`) and its text. */
  datatype Entity = Entity(tag: string, text: string)

  /** Whether the spaCy model loaded, and if so the entities it found in the script. */
  datatype Engine = Spacy(entities: seq<Entity>) | NoModel

  predicate IsPlaceLabel(tag: string) {
    tag == "GPE" || tag == "LOC" || tag == "FAC"
  }

  /** The texts of place entities (`GPE`, `LOC`, `FAC`), in document order. */
  function PlaceTexts(es: seq<Entity>): (r: seq<string>)
    ensures forall x :: x in r <==> exists e :: e in es && IsPlaceLabel(e.tag) && e.text == x
    decreases |es|
  {
    if |es| == 0 then []
    else
      assert es == [es[0]] + es[1..];
      (if IsPlaceLabel(es[0].tag) then [es[0].text] else []) + PlaceTexts(es[1..])
  }

  /** The texts of `PERSON` entities, in document order. */
  function PersonTexts(es: seq<Entity>): (r: seq<string>)
    ensures forall x :: x in r <==> exists e :: e in es && e.tag == "PERSON" && e.text == x
    decreases |es|
  {
    if |es| == 0 then []
    else
      assert es == [es[0]] + es[1..];
      (if !IsPlaceLabel(es[0].tag) && es[0].tag == "PERSON" then [es[0].text] else []) + PersonTexts(es[1..])
  }

  /** `[f"{prefix}{i+1}" for i in range(n)]`. */
  function Numbered(prefix: string, n: nat): (r: seq<string>)
    ensures |r| == n
  {
    seq(n, (i: nat) => prefix + Numerals.NatString(i + 1))
  }

  lemma NumberedDistinct(prefix: string, n: nat)
    ensures Distinct(Numbered(prefix, n))
  {
    var r := Numbered(prefix, n);
    forall i, j | 0 <= i < j < n
      ensures r[i] != r[j]
    {
      var x, y := Numerals.NatString(i + 1), Numerals.NatString(j + 1);
      assert r[i] == prefix + x && r[j] == prefix + y;
      if prefix + x == prefix + y {
        assert (prefix + x)[|prefix|..] == x;
        assert (prefix + y)[|prefix|..] == y;
        Numerals.NatStringInjective(i + 1, j + 1);
      }
    }
  }

  /** `min(100, loc_count * 5 + char_count * 3)`. */
  function Complexity(locationCount: int, characterCount: int): (c: int)
    ensures c <= 100
    ensures c == 100 || c == 5 * locationCount + 3 * characterCount
    ensures c <= 5 * locationCount + 3 * characterCount
  {
    if 5 * locationCount + 3 * characterCount < 100 then 5 * locationCount + 3 * characterCount else 100
  }

  /** The ranges of `random.randint` in each branch: (1, 3) and (2, 5) with the model, (5, 15) and (10, 30) without. */
  predicate DrawsInRange(engine: Engine, first: int, second: int) {
    match engine
    case Spacy(_) => 1 <= first <= 3 && 2 <= second <= 5
    case NoModel => 5 <= first <= 15 && 10 <= second <= 30
  }

  /**
   * `get_script_breakdown`. With the model, the counts are the numbers of distinct
   * place and person texts plus the two draws; without it, the draws are the counts
   * and the lists are the numbered placeholders `Location 1`, ... and `Character 1`, ...
   * Both lists are returned sorted.
   */
  function Analyse(engine: Engine, first: int, second: int, shootDays: int): (b: Breakdown)
    requires DrawsInRange(engine, first, second)
    ensures b.complexityScore == Complexity(b.locationCount, b.characterCount) <= 100
    ensures b.estimatedShootDays == shootDays
    ensures Sorted(b.locations) && Distinct(b.locations)
    ensures Sorted(b.characters) && Distinct(b.characters)
    ensures engine.Spacy? ==>
      && b.locationCount == |b.locations| + first > |b.locations|
      && b.characterCount == |b.characters| + second > |b.characters|
      && (forall x :: x in b.locations <==> x in PlaceTexts(engine.entities))
      && (forall x :: x in b.characters <==> x in PersonTexts(engine.entities))
    ensures engine.NoModel? ==>
      && |b.locations| == b.locationCount && 5 <= b.locationCount <= 15
      && |b.characters| == b.characterCount && 10 <= b.characterCount <= 30
      && 55 <= b.complexityScore
      && multiset(b.locations) == multiset(Numbered("Location ", first))
      && multiset(b.characters) == multiset(Numbered("Character ", second))
  {
    match engine
    case Spacy(es) =>
      var locations := SortedSet(PlaceTexts(es));
      var characters := SortedSet(PersonTexts(es));
      var locationCount := |locations| + first;
      var characterCount := |characters| + second;
      Breakdown(locationCount, characterCount, shootDays, Complexity(locationCount, characterCount), locations, characters)
    case NoModel =>
      var names := Numbered("Location ", first);
      var people := Numbered("Character ", second);
      NumberedDistinct("Location ", first);
      NumberedDistinct("Character ", second);
      var locations := Sort(names);
      var characters := Sort(people);
      DistinctRearranged(names, locations);
      DistinctRearranged(people, characters);
      assert |locations| == |multiset(locations)| == |names|;
      assert |characters| == |multiset(characters)| == |people|;
      Breakdown(first, second, shootDays, Complexity(first, second), locations, characters)
  }
}
