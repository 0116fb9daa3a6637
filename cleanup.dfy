/** The stand-alone purge script cleanup_production.py: the same DELETE
    statements as the store's clean_false_positives, with its own pattern
    lists, run against an existing store. */
module Cleanup {
  import opened Wrappers
  import opened Text
  import opened MentionStore

  /** The Finch list of the script: the store's list plus two more phrases. */
  const ProductionFinchPatterns: seq<string> := [
    "beth finch", "chris finch", "tess finch", "spencer finch",
    "christine finch", "evelyn finch", "elisabeth finch",
    "obituary", "mayor", "timberwolves", "nba", "basketball",
    "real estate agent", "grey's anatomy", "coach", "player",
    "olden polynice", "sports illustrate"]

  /** The Cerebra list of the script: no bare "cerebral", two more phrases. */
  const ProductionCerebraPatterns: seq<string> := [
    "cerebral palsy", "brain injury", "palsy",
    "patient", "medical", "hospital", "therapy", "disability",
    "neurological", "treatment", "delivery robot", "mobility scooter"]

  /** The table the script leaves behind. */
  function ProductionSurvivors(rows: seq<Row>): seq<Row> {
    Survivors(Survivors(rows, "Finch", ProductionFinchPatterns), "Cerebra", ProductionCerebraPatterns)
  }

  /** A row is removed iff it is a Finch row matching a Finch pattern or a
      Cerebra row matching a Cerebra pattern; every other row stays. */
  lemma ProductionSurvivorsMembers(rows: seq<Row>)
    ensures forall x :: x in ProductionSurvivors(rows) <==>
              x in rows && !Purged(x, "Finch", ProductionFinchPatterns) && !Purged(x, "Cerebra", ProductionCerebraPatterns)
  {
    TwoPurgesMembers(rows, "Finch", ProductionFinchPatterns, "Cerebra", ProductionCerebraPatterns);
  }

  /** Only Finch and Cerebra rows can go. */
  lemma ProductionKeepsOtherCompanies(rows: seq<Row>, x: Row)
    requires x in rows && x.companyName != "Finch" && x.companyName != "Cerebra"
    ensures x in ProductionSurvivors(rows)
  {
    ProductionSurvivorsMembers(rows);
  }

  /** A second run finds nothing to delete. */
  lemma ProductionIdempotent(rows: seq<Row>)
    ensures ProductionSurvivors(ProductionSurvivors(rows)) == ProductionSurvivors(rows)
  {
    var once := ProductionSurvivors(rows);
    ProductionSurvivorsMembers(rows);
    SurvivorsUnmatched(once, "Finch", ProductionFinchPatterns);
    SurvivorsUnmatched(once, "Cerebra", ProductionCerebraPatterns);
  }

  /** clean_false_positives of the script. `fault` stands for an exception
      raised by SQLite (a missing table, a locked file): the `with` block rolls
      back and the function returns 0. */
  method CleanFalsePositivesProduction(db: MentionDatabase, fault: bool) returns (deletedCount: nat)
    requires db.Valid()
    modifies db`mentions
    ensures db.Valid()
    ensures fault ==> deletedCount == 0 && db.mentions == old(db.mentions)
    ensures !fault ==> db.mentions == ProductionSurvivors(old(db.mentions))
    ensures !fault ==> deletedCount == |old(db.mentions)| - |db.mentions|
  {
    if fault {
      return 0;
    }
    var totalBefore := |db.mentions|;
    var finch := db.DeleteAll("Finch", ProductionFinchPatterns);
    var cerebra := db.DeleteAll("Cerebra", ProductionCerebraPatterns);
    deletedCount := finch + cerebra;
    var totalAfter := |db.mentions|;
    assert deletedCount == totalBefore - totalAfter;
  }

  /** No pattern of the script's Cerebra list occurs in "cerebral": the long
      ones do not fit, and the short ones start with a letter it lacks. */
  lemma CerebralMatchesNoScriptPattern()
    ensures forall p :: p in ProductionCerebraPatterns ==> !Contains("cerebral", p)
  {
    TooLongAbsent("cerebral", "cerebral palsy");
    TooLongAbsent("cerebral", "brain injury");
    CerebralLacksShortPatterns();
    TooLongAbsent("cerebral", "disability");
    TooLongAbsent("cerebral", "neurological");
    TooLongAbsent("cerebral", "treatment");
    TooLongAbsent("cerebral", "delivery robot");
    TooLongAbsent("cerebral", "mobility scooter");
  }

  /** The short patterns start with p, m, h or t, none of them in "cerebral". */
  lemma CerebralLacksShortPatterns()
    ensures !Contains("cerebral", "palsy") && !Contains("cerebral", "patient")
    ensures !Contains("cerebral", "medical") && !Contains("cerebral", "hospital")
    ensures !Contains("cerebral", "therapy")
  {
    CerebralLacksP();
    FirstCharAbsent("cerebral", "medical");
    FirstCharAbsent("cerebral", "hospital");
    FirstCharAbsent("cerebral", "therapy");
  }

  lemma CerebralLacksP()
    ensures !Contains("cerebral", "palsy") && !Contains("cerebral", "patient")
  {
    FirstCharAbsent("cerebral", "palsy");
    FirstCharAbsent("cerebral", "patient");
  }

  /** The two purges disagree: a Cerebra row titled "Cerebral" without content
      is deleted by the store's clean_false_positives and kept by the script. */
  lemma CerebralKeptByScriptOnly(x: Row)
    requires x.companyName == "Cerebra" && x.title == "Cerebral" && x.content.None?
    ensures Purged(x, "Cerebra", CerebraFalsePositives)
    ensures !Purged(x, "Cerebra", ProductionCerebraPatterns)
  {
    CerebralPurgedByStore(x);
    assert LowerStr(x.title) == "cerebral";
    CerebralMatchesNoScriptPattern();
  }

  lemma CerebralPurgedByStore(x: Row)
    requires x.companyName == "Cerebra" && x.title == "Cerebral"
    ensures Purged(x, "Cerebra", CerebraFalsePositives)
  {
    assert LowerStr(x.title) == "cerebral";
    assert StartsWith("cerebral", "cerebral");
    assert MatchesPattern(x, CerebraFalsePositives[1]);
  }
}
