/**
  Arbitration of a contested place (a host, or a listener and host pair)
  between the configurations that claim it, one claim at a time.

  The source keeps one object per configuration and stores the same pointer
  both in the map of configurations and in the map of places, so a warning
  added to a holder shows in both. The model keeps, for every place, the key
  of the configuration that holds it (`holders`), and the configurations by
  key (`resources`); the map of places is their composition.
 */
module Arbitration {
  import opened Resources

  datatype Holding<P> = Holding(holders: map<P, string>, resources: map<string, Resource>)

  /** Every holder is a known configuration. */
  predicate Consistent<P>(s: Holding<P>) {
    forall p :: p in s.holders ==> s.holders[p] in s.resources
  }

  /** The map from each place to the configuration holding it. */
  function Places<P>(s: Holding<P>): (m: map<P, Resource>)
    requires Consistent(s)
    ensures m.Keys == s.holders.Keys
    ensures forall p :: p in m ==> m[p] == s.resources[s.holders[p]]
  {
    map p | p in s.holders :: s.resources[s.holders[p]]
  }

  /** The configuration under `key` claims `place`; the loser gets `warning`. */
  function Claim<P>(s: Holding<P>, place: P, key: string, warning: string): (r: Holding<P>)
    requires Consistent(s) && key in s.resources
    ensures Consistent(r) && r.resources.Keys == s.resources.Keys
  {
    if place !in s.holders then
      s.(holders := s.holders[place := key])
    else
      var holder := s.holders[place];
      if !s.resources[holder].Wins(s.resources[key]) then
        Holding(s.holders[place := key], s.resources[holder := s.resources[holder].AddWarning(warning)])
      else
        s.(resources := s.resources[key := s.resources[key].AddWarning(warning)])
  }

  /** One claim made so far: configuration `key` asked for `place`. */
  datatype Claimant<P> = Claimant(place: P, key: string)

  /**
    What arbitration guarantees about the claims made so far: every claimed
    place has a holder, no claimant beats the holder of the place it asked
    for, every claimant that does not hold the place carries the place's
    warning, and every holder claimed its place.
   */
  ghost predicate Arbitrated<P>(s: Holding<P>, claims: seq<Claimant<P>>, warningOf: P -> string) {
    && Consistent(s)
    && (forall c :: c in claims ==>
          && c.key in s.resources
          && c.place in s.holders
          && !s.resources[c.key].Wins(s.resources[s.holders[c.place]])
          && (s.holders[c.place] != c.key ==> warningOf(c.place) in s.resources[c.key].warnings))
    && (forall p :: p in s.holders ==> Claimant(p, s.holders[p]) in claims)
  }

  /** `s2` has the configurations of `s1` with the same metadata and at least their warnings. */
  ghost predicate Grows<P>(s1: Holding<P>, s2: Holding<P>) {
    && s1.resources.Keys <= s2.resources.Keys
    && forall k :: k in s1.resources ==>
         && s2.resources[k].ObjectMeta() == s1.resources[k].ObjectMeta()
         && (forall w :: w in s1.resources[k].warnings ==> w in s2.resources[k].warnings)
  }

  /** A winner stays a winner, a loser a loser: "not winning" is transitive. */
  lemma NotWinsTransitive(a: Resource, b: Resource, c: Resource)
    requires !a.Wins(b) && !b.Wins(c)
    ensures !a.Wins(c)
  {
    var ma, mb, mc := a.ObjectMeta(), b.ObjectMeta(), c.ObjectMeta();
    if ChooseObjectMetaWinner(ma, mc) {
      Ordering.StrLessTotal(ma.uid, mb.uid);
      Ordering.StrLessTotal(mb.uid, mc.uid);
      if ChooseObjectMetaWinner(mb, ma) {
        WinnerTransitive(mb, ma, mc);
      } else if ChooseObjectMetaWinner(mc, mb) {
        WinnerTransitive(ma, mc, mb);
      } else {
        Ordering.StrLessTransitive(mc.uid, mb.uid, ma.uid);
        Ordering.StrLessIrreflexive(ma.uid);
      }
    }
  }

  lemma WinsAsymmetric(a: Resource, b: Resource)
    requires a.Wins(b)
    ensures !b.Wins(a)
  {
    if b.Wins(a) {
      WinnerTransitive(a.ObjectMeta(), b.ObjectMeta(), a.ObjectMeta());
      WinnerIrreflexive(a.ObjectMeta());
    }
  }

  /** A warning changes neither the metadata nor the earlier warnings. */
  lemma AddWarningKeeps(r: Resource, warning: string)
    ensures r.AddWarning(warning).ObjectMeta() == r.ObjectMeta()
    ensures forall w :: w in r.warnings ==> w in r.AddWarning(warning).warnings
  {
  }

  lemma WarnedGrows<P>(s: Holding<P>, key: string, warning: string)
    requires key in s.resources
    ensures Grows(s, s.(resources := s.resources[key := s.resources[key].AddWarning(warning)]))
  {
    AddWarningKeeps(s.resources[key], warning);
  }

  lemma ClaimGrows<P>(s: Holding<P>, place: P, key: string, warning: string)
    requires Consistent(s) && key in s.resources
    ensures Grows(s, Claim(s, place, key, warning))
  {
    if place in s.holders {
      var holder := s.holders[place];
      if !s.resources[holder].Wins(s.resources[key]) {
        WarnedGrows(s, holder, warning);
      } else {
        WarnedGrows(s, key, warning);
      }
    }
  }

  /** Claims on other places are undisturbed by a claim that keeps their holders. */
  lemma OtherClaimsArbitrated<P>(s: Holding<P>, r: Holding<P>, claims: seq<Claimant<P>>, warningOf: P -> string, place: P)
    requires Arbitrated(s, claims, warningOf) && Grows(s, r) && Consistent(r)
    requires forall p :: p in s.holders && p != place ==> p in r.holders && r.holders[p] == s.holders[p]
    ensures forall c :: c in claims && c.place != place ==>
          && c.key in r.resources
          && c.place in r.holders
          && !r.resources[c.key].Wins(r.resources[r.holders[c.place]])
          && (r.holders[c.place] != c.key ==> warningOf(c.place) in r.resources[c.key].warnings)
  {
  }

  /** The first claim of a place takes it. */
  lemma ClaimFreeArbitrated<P>(s: Holding<P>, claims: seq<Claimant<P>>, warningOf: P -> string, place: P, key: string)
    requires Arbitrated(s, claims, warningOf) && key in s.resources && place !in s.holders
    ensures Arbitrated(Claim(s, place, key, warningOf(place)), claims + [Claimant(place, key)], warningOf)
  {
    var r := Claim(s, place, key, warningOf(place));
    ClaimGrows(s, place, key, warningOf(place));
    OtherClaimsArbitrated(s, r, claims, warningOf, place);
    WinnerIrreflexive(s.resources[key].ObjectMeta());
  }

  /** A newcomer the holder does not win over takes the place; the holder is warned. */
  lemma ClaimTakenArbitrated<P>(s: Holding<P>, claims: seq<Claimant<P>>, warningOf: P -> string, place: P, key: string)
    requires Arbitrated(s, claims, warningOf) && key in s.resources && place in s.holders
    requires !s.resources[s.holders[place]].Wins(s.resources[key])
    ensures Arbitrated(Claim(s, place, key, warningOf(place)), claims + [Claimant(place, key)], warningOf)
  {
    var r := Claim(s, place, key, warningOf(place));
    var holder := s.holders[place];
    ClaimGrows(s, place, key, warningOf(place));
    OtherClaimsArbitrated(s, r, claims, warningOf, place);
    AddWarningKeeps(s.resources[holder], warningOf(place));
    forall c | c in claims + [Claimant(place, key)] && c.place == place
      ensures !r.resources[c.key].Wins(r.resources[key])
      ensures key != c.key ==> warningOf(place) in r.resources[c.key].warnings
    {
      if c.key != key {
        assert c in claims;
        NotWinsTransitive(s.resources[c.key], s.resources[holder], s.resources[key]);
      } else {
        WinnerIrreflexive(s.resources[key].ObjectMeta());
      }
    }
  }

  /** A newcomer the holder wins over is warned. */
  lemma ClaimKeptArbitrated<P>(s: Holding<P>, claims: seq<Claimant<P>>, warningOf: P -> string, place: P, key: string)
    requires Arbitrated(s, claims, warningOf) && key in s.resources && place in s.holders
    requires s.resources[s.holders[place]].Wins(s.resources[key])
    ensures Arbitrated(Claim(s, place, key, warningOf(place)), claims + [Claimant(place, key)], warningOf)
  {
    var r := Claim(s, place, key, warningOf(place));
    ClaimGrows(s, place, key, warningOf(place));
    OtherClaimsArbitrated(s, r, claims, warningOf, place);
    AddWarningKeeps(s.resources[key], warningOf(place));
    WinsAsymmetric(s.resources[s.holders[place]], s.resources[key]);
    WinnerIrreflexive(s.resources[key].ObjectMeta());
  }

  /** Arbitration between the current holder and a newcomer keeps what Arbitrated promises. */
  lemma ClaimArbitrated<P>(s: Holding<P>, claims: seq<Claimant<P>>, warningOf: P -> string, place: P, key: string)
    requires Arbitrated(s, claims, warningOf) && key in s.resources
    ensures Arbitrated(Claim(s, place, key, warningOf(place)), claims + [Claimant(place, key)], warningOf)
  {
    if place !in s.holders {
      ClaimFreeArbitrated(s, claims, warningOf, place, key);
    } else if !s.resources[s.holders[place]].Wins(s.resources[key]) {
      ClaimTakenArbitrated(s, claims, warningOf, place, key);
    } else {
      ClaimKeptArbitrated(s, claims, warningOf, place, key);
    }
  }

  /** A configuration registered under a fresh key disturbs no claim. */
  lemma RegisterArbitrated<P>(s: Holding<P>, claims: seq<Claimant<P>>, warningOf: P -> string, key: string, resource: Resource)
    requires Arbitrated(s, claims, warningOf) && key !in s.resources
    ensures Arbitrated(s.(resources := s.resources[key := resource]), claims, warningOf)
  {
  }

  /** With distinct UIDs, the holder of a place wins over every other claimant of it. */
  lemma HolderWins<P>(s: Holding<P>, claims: seq<Claimant<P>>, warningOf: P -> string, c: Claimant<P>)
    requires Arbitrated(s, claims, warningOf) && c in claims
    requires s.holders[c.place] != c.key
    requires s.resources[s.holders[c.place]].ObjectMeta().uid != s.resources[c.key].ObjectMeta().uid
    ensures s.resources[s.holders[c.place]].Wins(s.resources[c.key])
    ensures warningOf(c.place) in s.resources[c.key].warnings
  {
    WinsExactlyOne(s.resources[s.holders[c.place]], s.resources[c.key]);
  }
}
