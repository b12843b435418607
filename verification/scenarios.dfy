/** The filter's and the join's results on small concrete inputs. */
module Scenarios {
  import opened Wrappers
  import opened Text
  import opened Types
  import opened TournamentSearch
  import opened Filtering
  import opened Registration

  const SpringOpen: Tournament :=
    Tournament("t1", "Spring Open", "", "Magic: The Gathering", "Standard", "", "", "", "", 8, 0.0, "",
               StatusRegistration, "o1", "Shop A", 0, "", "")
  const DraftNight: Tournament :=
    Tournament("t2", "Draft Night", "", "Pokemon TCG", "Draft", "", "", "", "", 8, 0.0, "",
               StatusRegistration, "o2", "Shop B", 0, "", "")

  const PokemonQuery: SearchFilters := SearchFilters("", "Pokemon TCG", "", "", "")
  const OpenQuery: SearchFilters := SearchFilters("OPEN", "", "", "", "")

  /** Filtering the two listings by game keeps exactly the Pokemon one. */
  lemma GameFilterScenario()
    ensures Search([SpringOpen, DraftNight], PokemonQuery) == [DraftNight]
  {
    SearchIsSelect([SpringOpen, DraftNight], PokemonQuery);
    assert !Matches(SpringOpen, PokemonQuery) && Matches(DraftNight, PokemonQuery);
    assert [SpringOpen, DraftNight][1..] == [DraftNight];
    assert [DraftNight][1..] == [];
  }

  lemma LowerOpen() ensures Lower("OPEN") == "open" {}
  lemma LowerSpringOpen() ensures Lower("Spring Open") == "spring open" {}
  lemma LowerDraftNight() ensures Lower("Draft Night") == "draft night" {}
  lemma LowerShopB() ensures Lower("Shop B") == "shop b" {}

  lemma OpenInSpringOpen()
    ensures Includes("spring open", "open")
  {
    assert OccursAt("spring open", "open", 7);
    IncludesIffOccurs("spring open", "open");
  }

  lemma OpenNotInDraftNight()
    ensures !Includes("draft night", "open") && !Includes("shop b", "open") && !Includes("", "open")
  {
    MissingCharExcludes("draft night", "open", 0);
    MissingCharExcludes("shop b", "open", 2);
    MissingCharExcludes("", "open", 0);
  }

  lemma SpringOpenMatchesOpen()
    ensures Matches(SpringOpen, OpenQuery)
  {
    LowerOpen();
    LowerSpringOpen();
    OpenInSpringOpen();
  }

  lemma DraftNightMissesOpen()
    ensures !Matches(DraftNight, OpenQuery)
  {
    LowerOpen();
    LowerDraftNight();
    LowerShopB();
    OpenNotInDraftNight();
  }

  /** The query "OPEN" matches "Spring Open" only, whatever its case. */
  lemma QueryScenario()
    ensures Search([SpringOpen, DraftNight], OpenQuery) == [SpringOpen]
  {
    SpringOpenMatchesOpen();
    DraftNightMissesOpen();
    SearchIsSelect([SpringOpen, DraftNight], OpenQuery);
    assert [SpringOpen, DraftNight][1..] == [DraftNight];
    assert [DraftNight][1..] == [];
  }

  /** A full tournament: no write, the "full" notice. */
  lemma FullTournamentScenario(u: User)
    ensures var t := SpringOpen.(maxPlayers := 2, registeredPlayers := 2);
            var s := ClientState([t], [], []);
            Join(s, "t1", Some(u), "p", "now", AllSucceed) == JoinResult(s, TournamentFull, false)
  {
  }
}
