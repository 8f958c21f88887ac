/**
 * Vendors and their Localized Vendor Rating (LVR) score: the seed list the server
 * stores (src/server/src/db.py, server/src/db.py) and the line producer page's ranking.
 */
module Vendors {

  datatype Vendor = Vendor(name: string, kind: string, lvrScore: int, reliability: string, priceCompetitiveness: string, contact: string)

  /** `MOCK_VENDORS`, in stored order. */
  const SeedVendors: seq<Vendor> := [
    Vendor("Prime Camera Rentals", "Camera Unit", 92, "High", "Good", "cam@prime.in"),
    Vendor("VFX Nexus Studios", "VFX Unit", 85, "Medium", "Average", "vfx@nexus.com"),
    Vendor("Kerala Lights Crew", "Lighting Unit", 78, "Medium", "Excellent", "klc@crew.net"),
    Vendor("South Sound Design", "Sound Unit", 95, "High", "Good", "sound@ssd.co")
  ]

  /**
   * Vendor dicts as a route hands them to `jsonify`. `stamped` dicts also carry the
   * ObjectId `_id` that `insert_many` wrote into them, which JSON cannot encode.
   */
  datatype Listing = Listing(vendors: seq<Vendor>, stamped: bool)

  /** Highest score first. */
  predicate NonIncreasing(vs: seq<Vendor>) {
    forall i, j :: 0 <= i < j < |vs| ==> vs[i].lvrScore >= vs[j].lvrScore
  }

  /** The vendors with score `k`, in their order in `vs`. */
  function WithScore(vs: seq<Vendor>, k: int): seq<Vendor>
    decreases |vs|
  {
    if |vs| == 0 then []
    else (if vs[0].lvrScore == k then [vs[0]] else []) + WithScore(vs[1..], k)
  }

  lemma WithScoreCons(v: Vendor, vs: seq<Vendor>, k: int)
    ensures WithScore([v] + vs, k) == (if v.lvrScore == k then [v] else []) + WithScore(vs, k)
  {
    assert ([v] + vs)[0] == v && ([v] + vs)[1..] == vs;
  }

  /** Puts `v` in front of the first vendor that does not outscore it, so it precedes its equals. */
  function Place(v: Vendor, vs: seq<Vendor>): (r: seq<Vendor>)
    requires NonIncreasing(vs)
    ensures NonIncreasing(r)
    ensures forall x :: x in r <==> x == v || x in vs
    decreases |vs|
  {
    if |vs| == 0 || vs[0].lvrScore <= v.lvrScore then
      [v] + vs
    else
      var t := Place(v, vs[1..]);
      assert vs == [vs[0]] + vs[1..];
      assert forall j :: 0 <= j < |t| ==> t[j].lvrScore <= vs[0].lvrScore by {
        forall j | 0 <= j < |t|
          ensures t[j].lvrScore <= vs[0].lvrScore
        {
          assert t[j] in t;
        }
      }
      [vs[0]] + t
  }

  lemma {:induction false} PlaceAddsOne(v: Vendor, vs: seq<Vendor>)
    requires NonIncreasing(vs)
    ensures multiset(Place(v, vs)) == multiset(vs) + multiset{v}
    decreases |vs|
  {
    if |vs| > 0 && vs[0].lvrScore > v.lvrScore {
      PlaceAddsOne(v, vs[1..]);
      assert vs == [vs[0]] + vs[1..];
    }
  }

  /** Placing `v` adds it in front of the vendors that share its score and leaves every other score's list alone. */
  lemma {:induction false} PlaceWithScore(v: Vendor, vs: seq<Vendor>, k: int)
    requires NonIncreasing(vs)
    ensures WithScore(Place(v, vs), k) == (if v.lvrScore == k then [v] else []) + WithScore(vs, k)
    decreases |vs|
  {
    if |vs| == 0 || vs[0].lvrScore <= v.lvrScore {
      WithScoreCons(v, vs, k);
    } else {
      PlaceWithScore(v, vs[1..], k);
      WithScoreCons(vs[0], Place(v, vs[1..]), k);
      WithScoreCons(vs[0], vs[1..], k);
      assert vs == [vs[0]] + vs[1..];
    }
  }

  /**
   * `data.vendors.sort((a, b) => b.lvr_score - a.lvr_score)`: a stable sort (required
   * of `Array.prototype.sort` since ECMAScript 2019) by descending score. The result is
   * a rearrangement of the list, ordered by score, in which vendors with equal scores
   * keep their order from the server.
   */
  function RankByScore(vs: seq<Vendor>): (r: seq<Vendor>)
    ensures NonIncreasing(r)
    decreases |vs|
  {
    if |vs| == 0 then []
    else
      assert vs == [vs[0]] + vs[1..];
      Place(vs[0], RankByScore(vs[1..]))
  }

  /** The ranking is a rearrangement of the server's list: nothing is lost, added or duplicated. */
  lemma {:induction false} RankingIsPermutation(vs: seq<Vendor>)
    ensures multiset(RankByScore(vs)) == multiset(vs)
    decreases |vs|
  {
    if |vs| > 0 {
      RankingIsPermutation(vs[1..]);
      PlaceAddsOne(vs[0], RankByScore(vs[1..]));
      assert vs == [vs[0]] + vs[1..];
    }
  }

  /** Vendors with equal scores appear in the ranking in the order the server sent them. */
  lemma {:induction false} RankingIsStable(vs: seq<Vendor>, k: int)
    ensures WithScore(RankByScore(vs), k) == WithScore(vs, k)
    decreases |vs|
  {
    if |vs| > 0 {
      RankingIsStable(vs[1..], k);
      PlaceWithScore(vs[0], RankByScore(vs[1..]), k);
      WithScoreCons(vs[0], vs[1..], k);
      assert vs == [vs[0]] + vs[1..];
    }
  }

  /** The seed list, scored 92, 85, 78, 95, is shown as 95, 92, 85, 78. */
  lemma SeedRanking()
    ensures RankByScore(SeedVendors) == [SeedVendors[3], SeedVendors[0], SeedVendors[1], SeedVendors[2]]
  {
    var s := SeedVendors;
    var a, b, c, d := s[0], s[1], s[2], s[3];
    assert a.lvrScore == 92 && b.lvrScore == 85 && c.lvrScore == 78 && d.lvrScore == 95;
    RankFour(a, b, c, d);
    assert s == [a, b, c, d];
  }

  lemma RankCons(v: Vendor, vs: seq<Vendor>)
    ensures RankByScore([v] + vs) == Place(v, RankByScore(vs))
  {
    assert ([v] + vs)[0] == v && ([v] + vs)[1..] == vs;
  }

  lemma PlaceBehind(v: Vendor, w: Vendor, vs: seq<Vendor>)
    requires NonIncreasing(vs) && NonIncreasing([w] + vs) && v.lvrScore < w.lvrScore
    ensures Place(v, [w] + vs) == [w] + Place(v, vs)
  {
    assert ([w] + vs)[0] == w && ([w] + vs)[1..] == vs;
  }

  lemma RankOne(d: Vendor)
    ensures RankByScore([d]) == [d]
  {
    RankCons(d, []);
    assert [d] + [] == [d];
  }

  lemma RankTwo(c: Vendor, d: Vendor)
    requires c.lvrScore < d.lvrScore
    ensures RankByScore([c, d]) == [d, c]
  {
    RankOne(d);
    RankCons(c, [d]);
    assert [c] + [d] == [c, d];
    PlaceBehind(c, d, []);
    assert Place(c, []) == [c];
  }

  lemma RankThree(b: Vendor, c: Vendor, d: Vendor)
    requires c.lvrScore < b.lvrScore < d.lvrScore
    ensures RankByScore([b, c, d]) == [d, b, c]
  {
    RankTwo(c, d);
    RankCons(b, [c, d]);
    assert [b] + [c, d] == [b, c, d];
    PlaceBehind(b, d, [c]);
    assert Place(b, [c]) == [b, c];
  }

  /** The ranking of four vendors scored like the seed list. */
  lemma RankFour(a: Vendor, b: Vendor, c: Vendor, d: Vendor)
    requires c.lvrScore < b.lvrScore < a.lvrScore < d.lvrScore
    ensures RankByScore([a, b, c, d]) == [d, a, b, c]
  {
    RankThree(b, c, d);
    RankCons(a, [b, c, d]);
    assert [a] + [b, c, d] == [a, b, c, d];
    PlaceBehind(a, d, [b, c]);
    assert Place(a, [b, c]) == [a, b, c];
  }
}
