/**
 * A toy model of life: a DNA string over the bases A, T, C and G is cut into
 * genes of three bases, each gene is expressed as one instruction per base,
 * a cell holds one protein per gene, and a tissue is made of cells grown
 * from nine random bases each.
 */
module Dna {
  import opened Wrappers
  import opened Numeric

  const BASES: seq<char> := ['A', 'T', 'C', 'G']

  /** The instruction each base stands for. */
  const INSTRUCTIONS: map<char, string> := map[
    'A' := "Iniciar crescimento",
    'T' := "Produzir energia",
    'C' := "Reparar danos",
    'G' := "Adaptar ambiente"
  ]

  /** Every character of `dna` is a base. */
  predicate IsDna(dna: string) {
    forall i :: 0 <= i < |dna| ==> dna[i] in INSTRUCTIONS
  }

  /** Exactly the four bases have an instruction. */
  lemma BasesHaveInstructions()
    ensures INSTRUCTIONS.Keys == set b | b in BASES
  {
    assert forall b :: b in INSTRUCTIONS.Keys ==> BASES[0] == b || BASES[1] == b || BASES[2] == b || BASES[3] == b;
  }

  /**
   * `criar_dna(size)`, where the i-th `random.choice` picked the base
   * `BASES[picks[i]]`; a size below 1 makes no draw.
   */
  function CreateDna(size: int, picks: seq<nat>): (dna: string)
    requires |picks| == MaxInt(size, 0)
    requires forall i :: 0 <= i < |picks| ==> picks[i] < |BASES|
    ensures |dna| == MaxInt(size, 0) && IsDna(dna)
    ensures forall i :: 0 <= i < |dna| ==> dna[i] == BASES[picks[i]]
  {
    seq(|picks|, i requires 0 <= i < |picks| => BASES[picks[i]])
  }

  datatype Gene = Gene(sequence: string)

  /**
   * The genes `Celula` cuts `dna` into: the slices of three bases starting at
   * 0, 3, 6, …, the last one shorter when the length is not a multiple of
   * three.
   */
  function Genes(dna: string): (gs: seq<Gene>)
    ensures |gs| == (|dna| + 2) / 3
    ensures forall k :: 0 <= k < |gs| ==> 1 <= |gs[k].sequence| <= 3 && (k < |gs| - 1 ==> |gs[k].sequence| == 3)
    ensures forall k :: 0 <= k < |gs| ==> gs[k].sequence == dna[3 * k..MinInt(3 * k + 3, |dna|)]
  {
    seq((|dna| + 2) / 3, k requires 0 <= k < (|dna| + 2) / 3 => Gene(dna[3 * k..MinInt(3 * k + 3, |dna|)]))
  }

  /** The bases of `gs`, gene after gene. */
  function Joined(gs: seq<Gene>): string {
    if gs == [] then [] else gs[0].sequence + Joined(gs[1..])
  }

  /** Past its first three bases, the genes of `dna` are those of the rest. */
  lemma GenesStep(dna: string)
    requires |dna| > 3
    ensures Genes(dna) == [Gene(dna[..3])] + Genes(dna[3..])
  {
    var gs, rest := Genes(dna), Genes(dna[3..]);
    assert |gs| == 1 + |rest|;
    forall k | 0 <= k < |rest|
      ensures gs[k + 1] == rest[k]
    {
      var lo, hi := 3 * k, MinInt(3 * k + 3, |dna| - 3);
      assert 3 + hi == MinInt(3 * (k + 1) + 3, |dna|);
      assert rest[k].sequence == dna[3..][lo..hi];
      assert gs[k + 1].sequence == dna[3 + lo..3 + hi];
      assert dna[3..][lo..hi] == dna[3 + lo..3 + hi];
    }
    assert gs[0] == Gene(dna[..3]);
  }

  /** Cutting DNA into genes loses and reorders nothing: the genes joined up are the DNA. */
  lemma {:induction false} GenesJoin(dna: string)
    ensures Joined(Genes(dna)) == dna
    decreases |dna|
  {
    if |dna| > 3 {
      GenesStep(dna);
      GenesJoin(dna[3..]);
      assert Genes(dna)[1..] == Genes(dna[3..]);
      assert dna == dna[..3] + dna[3..];
    } else if dna != [] {
      assert MinInt(3, |dna|) == |dna| && dna[0..|dna|] == dna;
      assert Genes(dna) == [Gene(dna)];
    }
  }

  /**
   * `Gene.expressar`: one instruction per base, in order; `None` for a gene
   * with a character that is not a base, where the dictionary lookup fails.
   */
  function Express(g: Gene): (r: Option<seq<string>>)
    ensures r.Some? <==> IsDna(g.sequence)
    ensures r.Some? ==> (|r.value| == |g.sequence| &&
      forall i :: 0 <= i < |g.sequence| ==> r.value[i] == INSTRUCTIONS[g.sequence[i]])
    decreases |g.sequence|
  {
    if g.sequence == [] then Some([])
    else if g.sequence[0] !in INSTRUCTIONS then None
    else
      var tail := Gene(g.sequence[1..]);
      assert forall i :: 0 <= i < |tail.sequence| ==> tail.sequence[i] == g.sequence[i + 1];
      match Express(tail)
      case None => None
      case Some(rest) => Some([INSTRUCTIONS[g.sequence[0]]] + rest)
  }

  datatype Protein = Protein(functions: seq<string>)

  datatype Cell = Cell(genes: seq<Gene>, proteins: seq<Protein>)

  /** The proteins of the genes `gs`, one per gene, or `None` when one of them cannot be expressed. */
  function Proteins(gs: seq<Gene>): (ps: Option<seq<Protein>>)
    ensures ps.Some? <==> forall k :: 0 <= k < |gs| ==> Express(gs[k]).Some?
    ensures ps.Some? ==> (|ps.value| == |gs| &&
      forall k :: 0 <= k < |gs| ==> Express(gs[k]) == Some(ps.value[k].functions))
  {
    if gs == [] then Some([])
    else
      match Express(gs[0])
      case None => None
      case Some(fs) =>
        match Proteins(gs[1..])
        case None => None
        case Some(rest) => Some([Protein(fs)] + rest)
  }

  /**
   * `Celula(dna)`: the genes of `dna` and one protein per gene holding its
   * expression; `None` exactly when `dna` holds a character that is not a
   * base.
   */
  function NewCell(dna: string): (c: Option<Cell>)
    ensures c.Some? <==> IsDna(dna)
    ensures c.Some? ==> (c.value.genes == Genes(dna) && |c.value.proteins| == |c.value.genes| &&
      forall k :: 0 <= k < |c.value.genes| ==> Express(c.value.genes[k]) == Some(c.value.proteins[k].functions))
  {
    var gs := Genes(dna);
    GenesCover(dna);
    match Proteins(gs)
    case None => None
    case Some(ps) => Some(Cell(gs, ps))
  }

  /** The genes of `dna` are all expressible exactly when `dna` is made of bases. */
  lemma GenesCover(dna: string)
    ensures (forall k :: 0 <= k < |Genes(dna)| ==> Express(Genes(dna)[k]).Some?) <==> IsDna(dna)
  {
    var gs := Genes(dna);
    if IsDna(dna) {
      forall k | 0 <= k < |gs|
        ensures IsDna(gs[k].sequence)
      {
        assert forall j :: 0 <= j < |gs[k].sequence| ==> gs[k].sequence[j] == dna[3 * k + j];
      }
    } else {
      var i :| 0 <= i < |dna| && dna[i] !in INSTRUCTIONS;
      var k := i / 3;
      assert 3 * k <= i < 3 * k + 3;
      assert k < |gs|;
      var piece := dna[3 * k..MinInt(3 * k + 3, |dna|)];
      assert gs[k].sequence == piece;
      assert piece[i - 3 * k] == dna[i];
      assert !IsDna(gs[k].sequence);
    }
  }

  /**
   * `Tecido(quantity)`: one cell per draw of nine bases, `picks[c]` being the
   * choices of cell `c`; every cell has exactly three genes of three bases,
   * each expressed as a protein with three functions.
   */
  function NewTissue(quantity: int, picks: seq<seq<nat>>): (cells: seq<Cell>)
    requires |picks| == MaxInt(quantity, 0)
    requires forall c :: 0 <= c < |picks| ==> |picks[c]| == 9 && forall i :: 0 <= i < 9 ==> picks[c][i] < |BASES|
    ensures |cells| == |picks|
    ensures forall c :: 0 <= c < |cells| ==>
      && Some(cells[c]) == NewCell(CreateDna(9, picks[c]))
      && |cells[c].genes| == 3 && |cells[c].proteins| == 3
      && forall k :: 0 <= k < 3 ==> |cells[c].genes[k].sequence| == 3 && |cells[c].proteins[k].functions| == 3
  {
    seq(|picks|, c requires 0 <= c < |picks| => NewCell(CreateDna(9, picks[c])).value)
  }
}
