/** The seeds that keep a token catalog from silently losing rows. */
module SeedCatalog {
  import opened ExecutorTypes

  /** A token row; addresses are compared without regard to case, so a number stands for both spellings. */
  datatype Seed = Seed(address: nat, symbol: string, decimals: nat)

  /** What the curated corrections make of a row on the chain at hand; `None` removes it. */
  type Correction = Seed -> Option<Seed>

  /** The row lists of a repository; a catalog row counts whether or not it is verified. */
  datatype Inputs = Inputs(
    defaults: seq<Seed>, baseline: map<nat, seq<Seed>>, curatedBase: seq<Seed>, curatedArbitrum: seq<Seed>,
    catalog: map<nat, seq<Seed>>)

  const NATIVE: nat := 0xEeeeeEeeeEeEeeEeEeEeeEEEeeeeEeeeeeeeEEeE

  const MAINNET: nat := 1
  const BASE: nat := 8453
  const ARBITRUM: nat := 42161

  function RowsOf(rows: map<nat, seq<Seed>>, chain: nat): seq<Seed> {
    if chain in rows then rows[chain] else []
  }

  /** All rows of a chain in the order in which they win. */
  function Precedence(inputs: Inputs, chain: nat): seq<Seed> {
    (if chain == MAINNET then inputs.defaults else [])
    + RowsOf(inputs.baseline, chain)
    + (if chain == BASE then inputs.curatedBase else [])
    + (if chain == ARBITRUM then inputs.curatedArbitrum else [])
    + RowsOf(inputs.catalog, chain)
  }

  function HandCurated(inputs: Inputs, chain: nat): seq<Seed> {
    (if chain == MAINNET then inputs.defaults else [])
    + (if chain == BASE then inputs.curatedBase else [])
    + (if chain == ARBITRUM then inputs.curatedArbitrum else [])
  }

  /** Which lists count on which chain, and in which order they win. */
  lemma ListsByChain(inputs: Inputs, chain: nat)
    ensures chain == 1 ==>
              Precedence(inputs, chain) == inputs.defaults + RowsOf(inputs.baseline, 1) + RowsOf(inputs.catalog, 1)
    ensures chain == 8453 ==>
              Precedence(inputs, chain)
              == RowsOf(inputs.baseline, 8453) + inputs.curatedBase + RowsOf(inputs.catalog, 8453)
    ensures chain == 42_161 ==>
              Precedence(inputs, chain)
              == RowsOf(inputs.baseline, 42_161) + inputs.curatedArbitrum + RowsOf(inputs.catalog, 42_161)
    ensures chain !in {1, 8453, 42_161} ==>
              Precedence(inputs, chain) == RowsOf(inputs.baseline, chain) + RowsOf(inputs.catalog, chain)
    ensures HandCurated(inputs, 1) == inputs.defaults && HandCurated(inputs, 8453) == inputs.curatedBase
    ensures HandCurated(inputs, 42_161) == inputs.curatedArbitrum
    ensures chain !in {1, 8453, 42_161} ==> HandCurated(inputs, chain) == []
  {
  }

  predicate Survives(correct: Correction, row: Seed) {
    row.address != NATIVE && correct(row).Some?
  }

  /** Row `i` is the first to claim an address. */
  predicate FirstFor(correct: Correction, rows: seq<Seed>, i: nat, address: nat) {
    && i < |rows| && Survives(correct, rows[i]) && correct(rows[i]).value.address == address
    && forall j :: 0 <= j < i && Survives(correct, rows[j]) ==> correct(rows[j]).value.address != address
  }

  /**
   * Every address some surviving row claims, each with the correction of the first row that claims it, and no other.
   */
  ghost predicate FirstWins(correct: Correction, rows: seq<Seed>, seeds: map<nat, Seed>) {
    && (forall i :: 0 <= i < |rows| && Survives(correct, rows[i]) ==> correct(rows[i]).value.address in seeds)
    && (forall address :: address in seeds ==>
          exists i: nat :: FirstFor(correct, rows, i, address) && seeds[address] == correct(rows[i]).value)
  }

  /** Adds a list of rows to the seeds of the rows before it. */
  method PushAll(
      correct: Correction, rows: seq<Seed>, seeds0: map<nat, Seed>, ghost before: seq<Seed>)
      returns (seeds: map<nat, Seed>)
    requires FirstWins(correct, before, seeds0)
    ensures FirstWins(correct, before + rows, seeds)
  {
    seeds := seeds0;
    assert before + rows[..0] == before;
    for i := 0 to |rows|
      invariant FirstWins(correct, before + rows[..i], seeds)
    {
      assert before + rows[..i + 1] == (before + rows[..i]) + [rows[i]];
      ghost var old_seeds := seeds;
      if rows[i].address != NATIVE {
        var corrected := correct(rows[i]);
        if corrected.Some? && corrected.value.address !in seeds {
          seeds := seeds[corrected.value.address := corrected.value];
        }
      }
      OneMoreRow(correct, before + rows[..i], rows[i], old_seeds);
    }
    assert rows[..|rows|] == rows;
  }

  function Pushed(correct: Correction, seeds: map<nat, Seed>, row: Seed): map<nat, Seed> {
    if Survives(correct, row) && correct(row).value.address !in seeds
    then seeds[correct(row).value.address := correct(row).value] else seeds
  }

  lemma OneMoreRow(correct: Correction, rows: seq<Seed>, row: Seed, seeds: map<nat, Seed>)
    requires FirstWins(correct, rows, seeds)
    ensures FirstWins(correct, rows + [row], Pushed(correct, seeds, row))
  {
    var after, all := Pushed(correct, seeds, row), rows + [row];
    forall address | address in after
      ensures exists i: nat :: FirstFor(correct, all, i, address) && after[address] == correct(all[i]).value
    {
      if address in seeds {
        var i: nat :| FirstFor(correct, rows, i, address) && seeds[address] == correct(rows[i]).value;
        assert FirstFor(correct, all, i, address) && all[i] == rows[i];
      } else {
        assert FirstFor(correct, all, |rows|, address);
      }
    }
  }

  method SeedsFor(inputs: Inputs, chain: nat, correct: Correction) returns (seeds: map<nat, Seed>)
    ensures FirstWins(correct, Precedence(inputs, chain), seeds)
  {
    hide FirstWins;
    NoRows(correct);
    seeds := map[];
    ghost var before := [];
    if chain == MAINNET {
      seeds := PushAll(correct, inputs.defaults, seeds, before);
      before := before + inputs.defaults;
    }
    seeds := PushAll(correct, RowsOf(inputs.baseline, chain), seeds, before);
    before := before + RowsOf(inputs.baseline, chain);
    if chain == BASE {
      seeds := PushAll(correct, inputs.curatedBase, seeds, before);
      before := before + inputs.curatedBase;
    }
    if chain == ARBITRUM {
      seeds := PushAll(correct, inputs.curatedArbitrum, seeds, before);
      before := before + inputs.curatedArbitrum;
    }
    seeds := PushAll(correct, RowsOf(inputs.catalog, chain), seeds, before);
    before := before + RowsOf(inputs.catalog, chain);
    assert before == Precedence(inputs, chain);
  }

  lemma NoRows(correct: Correction)
    ensures FirstWins(correct, [], map[])
  {
  }

  /** The addresses a person put there; native rows are not filtered here. */
  method HandCuratedSeedsFor(inputs: Inputs, chain: nat, correct: Correction) returns (addresses: set<nat>)
    ensures forall a :: a in addresses <==> exists row :: row in HandCurated(inputs, chain) && Claims(correct, row, a)
  {
    addresses := {};
    var rows := HandCurated(inputs, chain);
    for i := 0 to |rows|
      invariant forall a :: a in addresses <==> exists row :: row in rows[..i] && Claims(correct, row, a)
    {
      assert rows[..i + 1] == rows[..i] + [rows[i]];
      var corrected := correct(rows[i]);
      if corrected.Some? {
        addresses := addresses + {corrected.value.address};
        assert Claims(correct, rows[i], corrected.value.address);
      }
    }
    assert rows[..|rows|] == rows;
  }

  predicate Claims(correct: Correction, row: Seed, address: nat) {
    correct(row).Some? && correct(row).value.address == address
  }

  /** No row that survives correction is lost, from whichever list it comes, verified or not. */
  lemma NoSurvivingRowIsLost(inputs: Inputs, chain: nat, correct: Correction, seeds: map<nat, Seed>, row: Seed)
    requires FirstWins(correct, Precedence(inputs, chain), seeds)
    requires row in Precedence(inputs, chain) && Survives(correct, row)
    ensures correct(row).value.address in seeds
  {
  }

  /** The two lists of seeds cannot disagree: what the map holds for an address is determined by the rows. */
  lemma FirstWinsIsUnique(correct: Correction, rows: seq<Seed>, x: map<nat, Seed>, y: map<nat, Seed>)
    requires FirstWins(correct, rows, x) && FirstWins(correct, rows, y)
    ensures x == y
  {
    Domain(correct, rows, x, y);
    Domain(correct, rows, y, x);
    forall address | address in x && address in y
      ensures x[address] == y[address]
    {
      var i: nat :| FirstFor(correct, rows, i, address) && x[address] == correct(rows[i]).value;
      var j: nat :| FirstFor(correct, rows, j, address) && y[address] == correct(rows[j]).value;
      assert i == j;
    }
  }

  lemma Domain(correct: Correction, rows: seq<Seed>, x: map<nat, Seed>, y: map<nat, Seed>)
    requires FirstWins(correct, rows, x) && FirstWins(correct, rows, y)
    ensures forall address :: address in x ==> address in y
  {
    forall address | address in x
      ensures address in y
    {
      var i: nat :| FirstFor(correct, rows, i, address) && x[address] == correct(rows[i]).value;
    }
  }

  /** A hand-curated address is missing from the seeds exactly when every row that claims it is a native one. */
  lemma HandCuratedIsSeeded(inputs: Inputs, chain: nat, correct: Correction, seeds: map<nat, Seed>, curated: Seed)
    requires FirstWins(correct, Precedence(inputs, chain), seeds)
    requires curated in HandCurated(inputs, chain) && correct(curated).Some?
    ensures correct(curated).value.address !in seeds
       <==> forall row :: row in Precedence(inputs, chain) && Claims(correct, row, correct(curated).value.address) ==>
           row.address == NATIVE
  {
    var rows, address := Precedence(inputs, chain), correct(curated).value.address;
    if address in seeds {
      var i: nat :| FirstFor(correct, rows, i, address) && seeds[address] == correct(rows[i]).value;
      assert rows[i] in rows && Claims(correct, rows[i], address);
    }
    if row :| row in rows && Claims(correct, row, address) && row.address != NATIVE {
      NoSurvivingRowIsLost(inputs, chain, correct, seeds, row);
    }
  }
}
