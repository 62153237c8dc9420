/** The configuration half of ApecGenerator (soxs/spectra.py:645-747): the
    NEI preconditions, the parsing of the freely varying elements ("O" in a
    CIE plasma, "O^4" in an NEI one) into sorted (Z, ion) pairs, the split of
    the remaining elements into the cosmic and metal groups, and the choice of
    abundance table. The element names, the element groups and the abundance
    tables come from soxs/constants.py, which is not part of this model: they
    are the Setup the generator is built against. */
module ApecConfig {
  import opened Numerics
  import opened Wrappers
  import opened Constants

  /** The RuntimeError, ValueError and KeyError exits of the generator. */
  datatype ApecError =
    | NeiWithoutRoot           // NEI tables are not shipped: apec_root needed
    | NeiWithoutVarElem        // NEI needs the varied ions named
    | DuplicateVarElem         // a var_elem string appears twice
    | IonInCie                 // "X^n" in a CIE plasma
    | MissingIonInNei          // "X" without "^n" in an NEI plasma
    | BadIon                   // int() refuses the text after "^"
    | EmptyVarElemArray        // var_elem[:, 0] on the one-dimensional np.array([])
    | VarElemOverflow          // OverflowError: np.array(var_elem, dtype='int') meets a number beyond a C long
    | UnknownElement           // elem_names.index raises ValueError
    | BadAbundTableLength      // a user table that is not 30 entries long
    | UnknownAbundTable        // abund_tables[name] raises KeyError
    | WrongMode                // get_spectrum on NEI, get_nei_spectrum on CIE
    | AbundanceKeysMismatch    // the free abundances are not the configured set
    | TemperatureOutOfTable    // Tvals or dTvals indexed out of range

  // ---------------------------------------------------------------------------
  // Python's list.index, str.split("^"), int() and "%d"

  /** list.index: the first position of x, None where Python raises. */
  function IndexOf<T(==)>(s: seq<T>, x: T): (r: Option<nat>)
    ensures r.Some? ==> r.value < |s| && s[r.value] == x && forall j :: 0 <= j < r.value ==> s[j] != x
    ensures r.None? <==> x !in s
  {
    if |s| == 0 then None
    else if s[0] == x then Some(0)
    else
      match IndexOf(s[1..], x)
      case None => None
      case Some(k) => Some(k + 1)
  }

  /** The position of the first '^', or the length when there is none. */
  function FirstCaret(s: string): (k: nat)
    ensures k <= |s|
    ensures forall j :: 0 <= j < k ==> s[j] != '^'
    ensures k < |s| ==> s[k] == '^'
  {
    if |s| == 0 then 0
    else if s[0] == '^' then 0
    else FirstCaret(s[1..]) + 1
  }

  /** elem.split("^")[0] and elem.split("^")[1]: the text before the first
      caret, and the text between it and the next caret (or the end). */
  function SplitCaret(s: string): (parts: (string, string))
    requires '^' in s
  {
    var k := FirstCaret(s);
    var rest := s[k + 1..];
    (s[..k], rest[..FirstCaret(rest)])
  }

  predicate IsDigit(c: char)
  {
    '0' <= c <= '9'
  }

  predicate AllDigits(s: string)
  {
    forall i :: 0 <= i < |s| ==> IsDigit(s[i])
  }

  /** The value of a run of decimal digits, most significant first. */
  function DigitsValue(s: string): nat
    requires AllDigits(s)
  {
    if |s| == 0 then 0
    else DigitsValue(s[..|s| - 1]) * 10 + ((s[|s| - 1] as int) - ('0' as int))
  }

  /** int(text) on an optionally signed run of decimal digits; None where
      Python raises ValueError. */
  function ParseInt(s: string): (r: Option<int>)
    ensures r.Some? <==> (var body := if |s| > 0 && (s[0] == '+' || s[0] == '-') then s[1..] else s;
                          |body| > 0 && AllDigits(body))
  {
    var negative := |s| > 0 && s[0] == '-';
    var body := if |s| > 0 && (s[0] == '+' || s[0] == '-') then s[1..] else s;
    if |body| == 0 || !AllDigits(body) then None
    else if negative then Some(-(DigitsValue(body) as int))
    else Some(DigitsValue(body))
  }

  /** "%d" of a natural number: its decimal digits, no leading zero. */
  function FormatNat(n: nat): (s: string)
    ensures |s| >= 1 && AllDigits(s)
    ensures |s| > 1 ==> s[0] != '0'
  {
    var last := [(('0' as int) + n % 10) as char];
    if n < 10 then last else FormatNat(n / 10) + last
  }

  /** "%d" of an integer. */
  function FormatInt(n: int): (s: string)
    ensures |s| >= 1 && '^' !in s
  {
    if n < 0 then "-" + FormatNat(-n) else FormatNat(n)
  }

  lemma {:induction false} DigitsValueOfFormatNat(n: nat)
    ensures DigitsValue(FormatNat(n)) == n
  {
    var s := FormatNat(n);
    if n >= 10 {
      assert s[..|s| - 1] == FormatNat(n / 10);
      DigitsValueOfFormatNat(n / 10);
    }
  }

  /** int() reads back what "%d" wrote. */
  lemma ParseIntOfFormatInt(n: int)
    ensures ParseInt(FormatInt(n)) == Some(n)
  {
    var s := FormatInt(n);
    if n < 0 {
      var body := FormatNat(-n);
      DigitsValueOfFormatNat(-n);
      assert s == "-" + body;
      assert s[0] == '-' && s[1..] == body;
    } else {
      DigitsValueOfFormatNat(n);
      assert IsDigit(s[0]);
    }
  }

  // ---------------------------------------------------------------------------
  // One var_elem entry

  /** An entry of var_elem read as the loop body reads it: an "X^n" entry is
      refused in a CIE plasma, and otherwise split at the caret, n read with
      int() before X is looked up; a bare "X" is refused in an NEI plasma and
      otherwise gets ion 0. */
  function ParseEntry(elem: string, nei: bool, elemNames: seq<string>): (r: Result<(nat, int), ApecError>)
    ensures r.Ok? ==> r.value.0 < |elemNames|
    ensures ('^' in elem && !nei) ==> r == Err(IonInCie)
    ensures ('^' !in elem && nei) ==> r == Err(MissingIonInNei)
    ensures r.Ok? && !nei ==> r.value.1 == 0 && elemNames[r.value.0] == elem
  {
    if '^' in elem then
      if !nei then Err(IonInCie)
      else
        var (e, ionText) := SplitCaret(elem);
        match ParseInt(ionText)
        case None => Err(BadIon)
        case Some(ion) =>
          match IndexOf(elemNames, e)
          case None => Err(UnknownElement)
          case Some(z) => Ok((z, ion))
    else if nei then Err(MissingIonInNei)
    else
      match IndexOf(elemNames, elem)
      case None => Err(UnknownElement)
      case Some(z) => Ok((z, 0))
  }

  /** The name "%s^%d" the generator records for a varied ion. */
  function IonName(name: string, ion: int): string
  {
    name + "^" + FormatInt(ion)
  }

  /** Splitting name + "^" + rest at the first caret gives name back, and
      the text up to the next caret. */
  lemma SplitCaretOfJoin(name: string, rest: string)
    requires '^' !in name && '^' !in rest
    ensures '^' in name + "^" + rest
    ensures SplitCaret(name + "^" + rest) == (name, rest)
  {
    var s := name + "^" + rest;
    assert s[|name|] == '^';
    FirstCaretIs(s, |name|);
    assert s[|name| + 1..] == rest;
    FirstCaretIs(rest, |rest|);
    assert rest[..|rest|] == rest;
    assert s[..|name|] == name;
    assert '^' in s;
  }

  lemma FirstCaretIs(s: string, k: nat)
    requires k <= |s| && (forall j :: 0 <= j < k ==> s[j] != '^') && (k < |s| ==> s[k] == '^')
    ensures FirstCaret(s) == k
  {
  }

  /** In an NEI plasma the recorded ion name of a pair parses back to the
      pair, whenever the element's name has no caret and is listed once. */
  lemma IonNameParsesBack(elemNames: seq<string>, z: nat, ion: int)
    requires z < |elemNames| && '^' !in elemNames[z]
    requires forall j :: 0 <= j < z ==> elemNames[j] != elemNames[z]
    ensures ParseEntry(IonName(elemNames[z], ion), true, elemNames) == Ok((z, ion))
  {
    var name := elemNames[z];
    var text := FormatInt(ion);
    SplitCaretOfJoin(name, text);
    ParseIntOfFormatInt(ion);
    assert SplitCaret(IonName(name, ion)) == (name, text);
    assert name in elemNames;
    var k := IndexOf(elemNames, name).value;
    assert elemNames[k] == name;
    assert k == z;
  }

  // ---------------------------------------------------------------------------
  // The whole var_elem list

  predicate Distinct<T(==)>(s: seq<T>)
  {
    forall i, j :: 0 <= i < j < |s| ==> s[i] != s[j]
  }

  /** Entry k is the first that fails, and fails with error. */
  predicate FirstFailure(varElem: seq<string>, nei: bool, elemNames: seq<string>, k: nat, error: ApecError)
    requires k < |varElem|
  {
    && (forall j :: 0 <= j < k ==> ParseEntry(varElem[j], nei, elemNames).Ok?)
    && ParseEntry(varElem[k], nei, elemNames) == Err(error)
  }

  /** The append loop over var_elem: the pairs of all entries, in order, or
      the error of the first entry that fails. */
  method ParseVarElem(varElem: seq<string>, nei: bool, elemNames: seq<string>)
    returns (r: Result<seq<(nat, int)>, ApecError>)
    ensures r.Ok? <==> forall i :: 0 <= i < |varElem| ==> ParseEntry(varElem[i], nei, elemNames).Ok?
    ensures r.Ok? ==> |r.value| == |varElem|
    ensures r.Ok? ==> forall i :: 0 <= i < |varElem| ==> r.value[i] == ParseEntry(varElem[i], nei, elemNames).value
    ensures r.Err? ==> (exists k :: 0 <= k < |varElem| && FirstFailure(varElem, nei, elemNames, k, r.error))
  {
    var pairs: seq<(nat, int)> := [];
    var i := 0;
    while i < |varElem|
      invariant 0 <= i <= |varElem| && |pairs| == i
      invariant forall j :: 0 <= j < i ==> ParseEntry(varElem[j], nei, elemNames).Ok?
      invariant forall j :: 0 <= j < i ==> pairs[j] == ParseEntry(varElem[j], nei, elemNames).value
    {
      var p := ParseEntry(varElem[i], nei, elemNames);
      if p.Err? {
        assert FirstFailure(varElem, nei, elemNames, i, p.error);
        return Err(p.error);
      }
      pairs := pairs + [p.value];
      i := i + 1;
    }
    return Ok(pairs);
  }

  /** The sort key (Z, ion), compared lexicographically. */
  predicate PairLe(a: (nat, int), b: (nat, int))
  {
    a.0 < b.0 || (a.0 == b.0 && a.1 <= b.1)
  }

  ghost predicate SortedPairs(s: seq<(nat, int)>)
  {
    forall i, j :: 0 <= i < j < |s| ==> PairLe(s[i], s[j])
  }

  /** x inserted in front of the first entry above it. */
  function Insert(s: seq<(nat, int)>, x: (nat, int)): (r: seq<(nat, int)>)
    requires SortedPairs(s)
    ensures SortedPairs(r) && multiset(r) == multiset(s) + multiset{x}
  {
    if |s| == 0 then [x]
    else if PairLe(x, s[0]) then [x] + s
    else
      var t := Insert(s[1..], x);
      assert s == [s[0]] + s[1..];
      InsertBehindHead(s, x, t);
      [s[0]] + t
  }

  lemma InsertBehindHead(s: seq<(nat, int)>, x: (nat, int), t: seq<(nat, int)>)
    requires SortedPairs(s) && |s| > 0 && !PairLe(x, s[0])
    requires SortedPairs(t) && multiset(t) == multiset(s[1..]) + multiset{x}
    ensures SortedPairs([s[0]] + t)
  {
    forall k | 0 <= k < |t| ensures PairLe(s[0], t[k]) {
      assert t[k] in multiset(t);
      if t[k] != x {
        assert t[k] in multiset(s[1..]);
        assert t[k] in s[1..];
      }
    }
  }

  /** var_elem.sort(key=(Z, ion)): the same pairs, ordered by the key. */
  method SortPairs(s: seq<(nat, int)>) returns (r: seq<(nat, int)>)
    ensures SortedPairs(r) && multiset(r) == multiset(s)
  {
    r := [];
    var i := 0;
    while i < |s|
      invariant 0 <= i <= |s|
      invariant SortedPairs(r) && multiset(r) == multiset(s[..i])
    {
      assert s[..i + 1] == s[..i] + [s[i]];
      r := Insert(r, s[i]);
      i := i + 1;
    }
    assert s[..|s|] == s;
  }

  /** The elements of a group that are not freed, in their order. */
  function WithoutFreed(group: seq<nat>, freed: seq<(nat, int)>): (r: seq<nat>)
    ensures forall x :: x in r <==> x in group && forall k :: 0 <= k < |freed| ==> freed[k].0 != x
    ensures |r| <= |group|
  {
    if |group| == 0 then []
    else
      var rest := WithoutFreed(group[1..], freed);
      assert forall x :: x in group <==> x == group[0] || x in group[1..];
      if forall k :: 0 <= k < |freed| ==> freed[k].0 != group[0] then [group[0]] + rest else rest
  }

  // ---------------------------------------------------------------------------
  // The generator

  /** What soxs/constants.py provides: the element names by atomic number,
      the cosmic and metal element groups, the abundance tables by name (the
      solar table "angr" among them), and the configured default table. */
  datatype Setup = Setup(
    elemNames: seq<string>,
    cosmicElem: seq<nat>,
    metalElem: seq<nat>,
    abundTables: map<string, seq<real>>,
    defaultTable: string)

  /** Every table has the 31 entries (index 0 unused, then Z = 1..30) the
      relative table is computed over, and the solar one has no zero. */
  ghost predicate SetupValid(setup: Setup)
  {
    && "angr" in setup.abundTables
    && (forall name :: name in setup.abundTables ==> |setup.abundTables[name]| == 31)
    && (forall z :: 1 <= z < 31 ==> setup.abundTables["angr"][z] != 0.0)
  }

  /** abund_table: a table name, or 30 abundances of the user's. */
  datatype AbundChoice = Named(name: string) | Custom(values: seq<real>)

  /** The constructor's arguments that reach the model (the version lookup,
      the file paths and opening the FITS files are I/O). */
  datatype Config = Config(
    emin: real,
    emax: real,
    nbins: nat,
    varElem: Option<seq<string>>,
    apecRoot: Option<string>,
    broadening: bool,
    nolines: bool,
    abundTable: Option<AbundChoice>,
    nei: bool)

  datatype Generator = Generator(
    nei: bool,
    nolines: bool,
    broadening: bool,
    ebins: seq<real>,
    de: seq<real>,
    emid: seq<real>,
    minlam: real,
    maxlam: real,
    tvals: seq<real>,
    dtvals: seq<real>,
    varElem: seq<(nat, int)>,
    varElemNames: seq<string>,
    varIonNames: seq<string>,
    cosmicElem: seq<nat>,
    metalElem: seq<nat>,
    atable: seq<real>,
    relAtable: seq<real>)

  /** The abundance table a choice selects: a user's 30 values behind a
      leading 0, or a copy of the named table. */
  function ChooseTable(setup: Setup, choice: AbundChoice): (r: Result<seq<real>, ApecError>)
    ensures choice.Custom? ==> (r.Ok? <==> |choice.values| == 30)
    ensures choice.Custom? && r.Ok? ==> r.value == [0.0] + choice.values
    ensures choice.Custom? && r.Err? ==> r.error == BadAbundTableLength
    ensures choice.Named? ==> (r.Ok? <==> choice.name in setup.abundTables)
    ensures choice.Named? && r.Ok? ==> r.value == setup.abundTables[choice.name]
    ensures choice.Named? && r.Err? ==> r.error == UnknownAbundTable
  {
    match choice
    case Custom(values) =>
      if |values| != 30 then Err(BadAbundTableLength) else Ok([0.0] + values)
    case Named(name) =>
      if name in setup.abundTables then Ok(setup.abundTables[name]) else Err(UnknownAbundTable)
  }

  /** _atable: the table relative to the solar one, entry 0 kept. */
  function RelativeTable(atable: seq<real>, solar: seq<real>): (r: seq<real>)
    requires |atable| == |solar| >= 1
    requires forall z :: 1 <= z < |solar| ==> solar[z] != 0.0
    ensures |r| == |atable| && r[0] == atable[0]
    ensures forall z :: 1 <= z < |r| ==> r[z] * solar[z] == atable[z]
  {
    [atable[0]] + seq(|atable| - 1, i requires 0 <= i < |atable| - 1 => atable[i + 1] / solar[i + 1])
  }

  /** The varied pairs a configuration names: none when var_elem is None. */
  ghost predicate VarElemParses(setup: Setup, cfg: Config)
  {
    cfg.varElem.Some? ==>
      forall i :: 0 <= i < |cfg.varElem.value| ==> ParseEntry(cfg.varElem.value[i], cfg.nei, setup.elemNames).Ok?
  }

  ghost function ParsedPairs(setup: Setup, cfg: Config): (pairs: seq<(nat, int)>)
    requires VarElemParses(setup, cfg)
  {
    if cfg.varElem.None? then []
    else
      var v := cfg.varElem.value;
      seq(|v|, i requires 0 <= i < |v| => ParseEntry(v[i], cfg.nei, setup.elemNames).value)
  }

  /** The range of the C long (int64) that np.array(..., dtype='int')
      stores each number in. */
  const LONG_MIN: int := -0x8000_0000_0000_0000
  const LONG_MAX: int := 0x7FFF_FFFF_FFFF_FFFF

  /** np.array(var_elem, dtype='int') raises OverflowError when a parsed
      element index or ion does not fit in a C long. */
  predicate PairsOverflow(pairs: seq<(nat, int)>)
  {
    exists i :: 0 <= i < |pairs| && !(pairs[i].0 <= LONG_MAX && LONG_MIN <= pairs[i].1 <= LONG_MAX)
  }

  /** The table a configuration asks for: abund_table, or the configured
      default. */
  function TableChoice(setup: Setup, cfg: Config): AbundChoice
  {
    if cfg.abundTable.Some? then cfg.abundTable.value else Named(setup.defaultTable)
  }

  /** An empty var_elem list becomes np.array([]), which has one dimension,
      so var_elem[:, 0] raises IndexError as soon as a group is filtered
      against it: always in an NEI plasma ([1, 2]), and in a CIE plasma
      whenever the cosmic or the metal group is non-empty. */
  predicate IndexesEmptyVarElem(setup: Setup, cfg: Config)
  {
    cfg.varElem == Some([]) && (cfg.nei || |setup.cosmicElem| > 0 || |setup.metalElem| > 0)
  }

  ghost predicate WellBuilt(setup: Setup, cfg: Config, tvals: seq<real>, g: Generator)
  {
    && 0.0 < cfg.emin < cfg.emax && cfg.nbins >= 1
    && g.nei == cfg.nei && g.nolines == cfg.nolines && g.broadening == cfg.broadening
    && g.ebins == Linspace(cfg.emin, cfg.emax, cfg.nbins + 1)
    && |g.ebins| == cfg.nbins + 1
    && g.de == Diff(g.ebins) && g.emid == Midpoints(g.ebins)
    && g.minlam == HC / cfg.emax && g.maxlam == HC / cfg.emin
    && g.tvals == tvals && |tvals| >= 1 && g.dtvals == Diff(tvals)
    && |g.varElemNames| == |g.varIonNames| == |g.varElem|
    && (forall i :: 0 <= i < |g.varElem| ==>
          && g.varElem[i].0 < |setup.elemNames|
          && g.varElemNames[i] == setup.elemNames[g.varElem[i].0]
          && g.varIonNames[i] == IonName(setup.elemNames[g.varElem[i].0], g.varElem[i].1))
    && |g.atable| == 31 && |g.relAtable| == 31
  }

  /** ApecGenerator.__init__ without its I/O: the NEI checks, then the
      var_elem checks, then the conversion to a C long array, then the
      IndexError of an empty var_elem, then the abundance table; it fails
      exactly when one of these does. On success the varied pairs are the
      entries' pairs sorted by (Z, ion), with ion 0 in a CIE plasma; the
      cosmic and metal groups hold exactly the listed elements that are not
      varied (H and He only, and no metals, in an NEI plasma); and the table
      is the chosen one, relative to the solar one in _atable. */
  method NewGenerator(setup: Setup, cfg: Config, tvals: seq<real>) returns (r: Result<Generator, ApecError>)
    requires SetupValid(setup)
    requires 0.0 < cfg.emin < cfg.emax && cfg.nbins >= 1 && |tvals| >= 1
    ensures cfg.nei && cfg.apecRoot.None? ==> r == Err(NeiWithoutRoot)
    ensures cfg.nei && cfg.apecRoot.Some? && cfg.varElem.None? ==> r == Err(NeiWithoutVarElem)
    ensures r.Ok? ==> !(cfg.nei && (cfg.apecRoot.None? || cfg.varElem.None?))
    ensures (cfg.varElem.Some? && !Distinct(cfg.varElem.value) && !(cfg.nei && cfg.apecRoot.None?)) ==>
      r == Err(DuplicateVarElem)
    ensures cfg.varElem.Some? && !(cfg.nei && cfg.apecRoot.None?) && Distinct(cfg.varElem.value)
            && !VarElemParses(setup, cfg) ==>
      r.Err? && exists k :: 0 <= k < |cfg.varElem.value| &&
                           FirstFailure(cfg.varElem.value, cfg.nei, setup.elemNames, k, r.error)
    ensures cfg.varElem.Some? && !(cfg.nei && cfg.apecRoot.None?) && Distinct(cfg.varElem.value)
            && VarElemParses(setup, cfg) && PairsOverflow(ParsedPairs(setup, cfg)) ==>
      r == Err(VarElemOverflow)
    ensures IndexesEmptyVarElem(setup, cfg) && !(cfg.nei && cfg.apecRoot.None?) ==> r == Err(EmptyVarElemArray)
    ensures r.Err? <==>
      || (cfg.nei && (cfg.apecRoot.None? || cfg.varElem.None?))
      || (cfg.varElem.Some? && (!Distinct(cfg.varElem.value) || !VarElemParses(setup, cfg)))
      || (cfg.varElem.Some? && VarElemParses(setup, cfg) && PairsOverflow(ParsedPairs(setup, cfg)))
      || IndexesEmptyVarElem(setup, cfg)
      || ChooseTable(setup, TableChoice(setup, cfg)).Err?
    ensures r.Ok? ==> VarElemParses(setup, cfg) && WellBuilt(setup, cfg, tvals, r.value)
    ensures r.Ok? ==> SortedPairs(r.value.varElem) && multiset(r.value.varElem) == multiset(ParsedPairs(setup, cfg))
    ensures r.Ok? ==> forall i :: 0 <= i < |r.value.varElem| ==> (cfg.nei || r.value.varElem[i].1 == 0)
    ensures r.Ok? ==> forall x :: x in r.value.cosmicElem <==>
      && x in (if cfg.nei then [1, 2] else setup.cosmicElem)
      && forall k :: 0 <= k < |r.value.varElem| ==> r.value.varElem[k].0 != x
    ensures r.Ok? ==> forall x :: x in r.value.metalElem <==>
      && !cfg.nei && x in setup.metalElem
      && forall k :: 0 <= k < |r.value.varElem| ==> r.value.varElem[k].0 != x
    ensures r.Ok? ==>
      && ChooseTable(setup, TableChoice(setup, cfg)) == Ok(r.value.atable)
      && r.value.relAtable == RelativeTable(r.value.atable, setup.abundTables["angr"])
  {
    if cfg.nei && cfg.apecRoot.None? {
      return Err(NeiWithoutRoot);
    }
    if cfg.nei && cfg.varElem.None? {
      return Err(NeiWithoutVarElem);
    }
    var pairs: seq<(nat, int)> := [];
    if cfg.varElem.Some? {
      if !Distinct(cfg.varElem.value) {
        return Err(DuplicateVarElem);
      }
      var parsed := ParseVarElem(cfg.varElem.value, cfg.nei, setup.elemNames);
      if parsed.Err? {
        return Err(parsed.error);
      }
      assert parsed.value == ParsedPairs(setup, cfg);
      // The sort cannot fail, so checking the numbers before it rather than
      // in np.array after it gives the same outcome.
      if PairsOverflow(parsed.value) {
        return Err(VarElemOverflow);
      }
      pairs := SortPairs(parsed.value);
    }
    assert multiset(pairs) == multiset(ParsedPairs(setup, cfg));
    forall i | 0 <= i < |pairs| ensures pairs[i].0 < |setup.elemNames| && (cfg.nei || pairs[i].1 == 0) {
      assert pairs[i] in multiset(ParsedPairs(setup, cfg));
    }
    r := Assemble(setup, cfg, tvals, pairs);
  }

  /** The rest of ApecGenerator.__init__ once the varied pairs are known:
      the IndexError of an empty var_elem, the energy grid, the names of the varied pairs, the cosmic and metal
      groups without them, and the abundance table. */
  method Assemble(setup: Setup, cfg: Config, tvals: seq<real>, pairs: seq<(nat, int)>)
    returns (r: Result<Generator, ApecError>)
    requires SetupValid(setup)
    requires 0.0 < cfg.emin < cfg.emax && cfg.nbins >= 1 && |tvals| >= 1
    requires forall i :: 0 <= i < |pairs| ==> pairs[i].0 < |setup.elemNames|
    ensures r.Err? <==> IndexesEmptyVarElem(setup, cfg) || ChooseTable(setup, TableChoice(setup, cfg)).Err?
    ensures IndexesEmptyVarElem(setup, cfg) ==> r == Err(EmptyVarElemArray)
    ensures r.Ok? ==> WellBuilt(setup, cfg, tvals, r.value) && r.value.varElem == pairs
    ensures r.Ok? ==> forall x :: x in r.value.cosmicElem <==>
      && x in (if cfg.nei then [1, 2] else setup.cosmicElem)
      && forall k :: 0 <= k < |pairs| ==> pairs[k].0 != x
    ensures r.Ok? ==> forall x :: x in r.value.metalElem <==>
      && !cfg.nei && x in setup.metalElem
      && forall k :: 0 <= k < |pairs| ==> pairs[k].0 != x
    ensures r.Ok? ==>
      && ChooseTable(setup, TableChoice(setup, cfg)) == Ok(r.value.atable)
      && r.value.relAtable == RelativeTable(r.value.atable, setup.abundTables["angr"])
  {
    if IndexesEmptyVarElem(setup, cfg) {
      return Err(EmptyVarElemArray);
    }
    var ebins := Linspace(cfg.emin, cfg.emax, cfg.nbins + 1);
    var names := seq(|pairs|, i requires 0 <= i < |pairs| => setup.elemNames[pairs[i].0]);
    var ionNames := seq(|pairs|, i requires 0 <= i < |pairs| => IonName(setup.elemNames[pairs[i].0], pairs[i].1));
    var cosmic := WithoutFreed(if cfg.nei then [1, 2] else setup.cosmicElem, pairs);
    var metal := if cfg.nei then [] else WithoutFreed(setup.metalElem, pairs);
    var table := ChooseTable(setup, TableChoice(setup, cfg));
    if table.Err? {
      return Err(table.error);
    }
    var solar := setup.abundTables["angr"];
    var g := Generator(cfg.nei, cfg.nolines, cfg.broadening, ebins, Diff(ebins), Midpoints(ebins),
                       HC / cfg.emax, HC / cfg.emin, tvals, Diff(tvals),
                       pairs, names, ionNames, cosmic, metal,
                       table.value, RelativeTable(table.value, solar));
    return Ok(g);
  }
}
