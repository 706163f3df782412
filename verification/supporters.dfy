/**
 * The clan-supporter list: a list of records that `addSupporter` appends to
 * in place, and its length.
 */
module Supporters {
  import opened Optional

  /** A supporter record; `name` is `None` when the object has no `name` field. */
  datatype Supporter = Supporter(name: Option<string>, handle: Option<string>, role: Option<string>, contribution: Option<string>)

  /** A `name` field is truthy when present and non-empty. */
  predicate HasName(s: Supporter)
  {
    s.name.Some? && s.name.value != ""
  }

  function Entry(name: string, handle: string, role: string, contribution: string): Supporter
  {
    Supporter(Some(name), Some(handle), Some(role), Some(contribution))
  }

  /** The list the script starts with. */
  const InitialSupporters: seq<Supporter> := [
    Entry("Rikimaru", "@AzureShadow", "Master Ninja", "Primary stealth advisor"),
    Entry("Ayame", "@CrimsonBlossom", "Kunoichi Specialist", "Speed and agility"),
    Entry("Tatsumaru", "@FallenBlade", "Former Azuma Elite", "Advanced combat"),
    Entry("Lord Gohda", "@GohdaLord", "Clan Patron", "Historical accuracy"),
    Entry("Matsunoshin", "@GoldenRetainer", "Chief Strategist", "Mission ethics"),
    Entry("Shadow Walker", "@NinjaPath", "Clan Supporter", "Early development"),
    Entry("Silent Blade", "@StealthArt", "Weapons Master", "Tool design"),
    Entry("Kunoichi", "@NightFlower", "Training Master", "Technique refinement")
  ]

  /** Every supporter in the list has a name. */
  predicate AllNamed(list: seq<Supporter>)
  {
    forall i :: 0 <= i < |list| ==> HasName(list[i])
  }

  /** The initial list has eight entries, all named. */
  lemma InitialSupportersNamed()
    ensures |InitialSupporters| == 8 && AllNamed(InitialSupporters)
  {
  }

  /** The module-level `supporters` array. */
  class SupporterList {
    var supporters: seq<Supporter>

    /**
     * Only named supporters are ever in the list, and the initial eight stay
     * at its front: nothing ever removes an entry.
     */
    ghost predicate Valid()
      reads this
    {
      && AllNamed(supporters)
      && |InitialSupporters| <= |supporters|
      && supporters[..|InitialSupporters|] == InitialSupporters
    }

    constructor ()
      ensures Valid() && supporters == InitialSupporters
      ensures GetSupporterCount() == 8
    {
      supporters := InitialSupporters;
    }

    /**
     * `addSupporter(newSupporter)`: a present record with a truthy name is
     * pushed as the last element and `true` is returned; anything else leaves
     * the list as it was and returns `false`.
     */
    method AddSupporter(newSupporter: Option<Supporter>) returns (added: bool)
      requires Valid()
      modifies this
      ensures Valid()
      ensures added <==> newSupporter.Some? && HasName(newSupporter.value)
      ensures added ==> supporters == old(supporters) + [newSupporter.value]
      ensures !added ==> supporters == old(supporters)
      ensures GetSupporterCount() == old(GetSupporterCount()) + (if added then 1 else 0)
    {
      if newSupporter.Some? && HasName(newSupporter.value) {
        assert (supporters + [newSupporter.value])[..|InitialSupporters|] == supporters[..|InitialSupporters|];
        supporters := supporters + [newSupporter.value];
        added := true;
      } else {
        added := false;
      }
    }

    /**
     * `getSupporterCount()`: the length of the list, which never drops below
     * the eight initial supporters.
     */
    function GetSupporterCount(): (n: nat)
      requires Valid()
      reads this
      ensures n == |supporters| && n >= 8
    {
      |supporters|
    }
  }
}
