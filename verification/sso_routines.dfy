/** The V-band colour transformation of models/sso_routines.py
    (`transform_Vmag`): an asteroid's magnitude in a Pan-STARRS1 passband
    from its Johnson-Cousins V magnitude and its taxonomic class, through a
    fixed table of V-minus-passband colours. */
module SsoRoutines {
  import opened Wrappers

  /** The taxonomic classes that `mag_mapping` has colours for. */
  datatype Taxonomy = Solar | Mean | SType | CType | QType | XType | DType | Neo

  /** The Pan-STARRS1 passbands that `mag_mapping` has colours for. */
  datatype Passband = G | R | I | Z | Y | W

  /** The key of a taxonomy in `mag_mapping`. */
  function TaxonomyKey(t: Taxonomy): string {
    match t
    case Solar => "SOLAR"
    case Mean => "MEAN"
    case SType => "S"
    case CType => "C"
    case QType => "Q"
    case XType => "X"
    case DType => "D"
    case Neo => "NEO"
  }

  /** The key of a passband in each inner dictionary of `mag_mapping`. */
  function PassbandKey(p: Passband): string {
    match p
    case G => "g"
    case R => "r"
    case I => "i"
    case Z => "z"
    case Y => "Y"
    case W => "w"
  }

  /** `mag_mapping`: the V minus passband colour of a taxonomy. */
  function Color(t: Taxonomy, p: Passband): real {
    match t
    case Solar => (match p case G => -0.217 case R => 0.183 case I => 0.293 case Z => 0.311 case Y => 0.311 case W => 0.114)
    case Mean  => (match p case G => -0.28  case R => 0.230 case I => 0.390 case Z => 0.37  case Y => 0.36  case W => 0.160)
    case SType => (match p case G => -0.325 case R => 0.275 case I => 0.470 case Z => 0.416 case Y => 0.411 case W => 0.199)
    case CType => (match p case G => -0.238 case R => 0.194 case I => 0.308 case Z => 0.320 case Y => 0.316 case W => 0.120)
    case QType => (match p case G => -0.312 case R => 0.252 case I => 0.379 case Z => 0.238 case Y => 0.158 case W => 0.156)
    case XType => (match p case G => -0.247 case R => 0.207 case I => 0.367 case Z => 0.419 case Y => 0.450 case W => 0.146)
    case DType => (match p case G => -0.281 case R => 0.246 case I => 0.460 case Z => 0.551 case Y => 0.627 case W => 0.191)
    case Neo   => (match p case G => -0.254 case R => 0.213 case I => 0.356 case Z => 0.322 case Y => 0.314 case W => 0.148)
  }

  /** The outer lookup `mag_mapping.get(key, None)`. */
  function TaxonomyOf(key: string): (r: Option<Taxonomy>)
    ensures r.Some? ==> TaxonomyKey(r.value) == key
  {
    if key == "SOLAR" then Some(Solar)
    else if key == "MEAN" then Some(Mean)
    else if key == "S" then Some(SType)
    else if key == "C" then Some(CType)
    else if key == "Q" then Some(QType)
    else if key == "X" then Some(XType)
    else if key == "D" then Some(DType)
    else if key == "NEO" then Some(Neo)
    else None
  }

  /** The inner lookup `color_terms.get(passband, None)`. */
  function PassbandOf(key: string): (r: Option<Passband>)
    ensures r.Some? ==> PassbandKey(r.value) == key
  {
    if key == "g" then Some(G)
    else if key == "r" then Some(R)
    else if key == "i" then Some(I)
    else if key == "z" then Some(Z)
    else if key == "Y" then Some(Y)
    else if key == "w" then Some(W)
    else None
  }

  /** The keys of `mag_mapping`, all in upper case. */
  const Taxonomies: set<string> := {"SOLAR", "MEAN", "S", "C", "Q", "X", "D", "NEO"}

  /** The keys of each inner dictionary; note the upper-case Y. */
  const Passbands: set<string> := {"g", "r", "i", "z", "Y", "w"}

  /** Upper case of one character (ASCII letters only). */
  function UpperChar(c: char): char {
    if 'a' <= c <= 'z' then (c as int - 32) as char else c
  }

  /** Lower case of one character (ASCII letters only). */
  function LowerChar(c: char): char {
    if 'A' <= c <= 'Z' then (c as int + 32) as char else c
  }

  /** `str.upper()`, character by character. */
  function Upper(s: string): (u: string)
    ensures |u| == |s|
  {
    seq(|s|, i requires 0 <= i < |s| => UpperChar(s[i]))
  }

  /** `str.lower()`, character by character. */
  function Lower(s: string): (l: string)
    ensures |l| == |s|
  {
    seq(|s|, i requires 0 <= i < |s| => LowerChar(s[i]))
  }

  /** The lookups find exactly the table's keys. */
  lemma TableKeys(key: string)
    ensures TaxonomyOf(key).Some? <==> key in Taxonomies
    ensures PassbandOf(key).Some? <==> key in Passbands
  {
  }

  /** Every taxonomy and passband is found under its own key, and no colour
      in the table is 0.0. */
  lemma TableEntries(t: Taxonomy, p: Passband)
    ensures TaxonomyOf(TaxonomyKey(t)) == Some(t)
    ensures PassbandOf(PassbandKey(p)) == Some(p)
    ensures Color(t, p) != 0.0
  {
  }

  /** `transform_Vmag(mag_V, passband, taxonomy)`: the magnitude in `passband`,
      or None. The taxonomy is looked up in upper case, the passband as
      given. Every inner dictionary has six entries, so the truthiness test
      on the colour terms passes whenever the taxonomy is found; the
      truthiness test on the colour itself (0.0 is false) is kept, and since
      no tabulated colour is 0.0 it never drops a tabulated pair: the result
      is defined exactly when both keys are in the table, and then V minus
      the result is the tabulated colour. */
  function TransformVmag(magV: real, passband: string, taxonomy: string): (r: Option<real>)
    ensures r.Some? <==> (Upper(taxonomy) in Taxonomies && passband in Passbands)
    ensures r.Some? ==>
              TaxonomyOf(Upper(taxonomy)).Some? && PassbandOf(passband).Some?
              && magV - r.value == Color(TaxonomyOf(Upper(taxonomy)).value, PassbandOf(passband).value)
  {
    TableKeys(Upper(taxonomy));
    TableKeys(passband);
    var colorTerms := TaxonomyOf(Upper(taxonomy));
    var deltaMag :=
      match colorTerms
      case None => None
      case Some(t) =>
        match PassbandOf(passband)
        case None => None
        case Some(p) => (TableEntries(t, p); Some(Color(t, p)));
    if deltaMag.Some? && deltaMag.value != 0.0 then Some(magV - deltaMag.value) else None
  }

  /** Upper case is idempotent and absorbs lower case. */
  lemma UpperOfCase(s: string)
    ensures Upper(Upper(s)) == Upper(s)
    ensures Upper(Lower(s)) == Upper(s)
  {
    var u := Upper(s);
    assert forall i :: 0 <= i < |s| ==> Upper(u)[i] == u[i];
    var l := Lower(s);
    assert forall i :: 0 <= i < |s| ==> Upper(l)[i] == u[i];
  }

  /** The taxonomy is case-insensitive: any spelling gives the result of its
      upper-case and its lower-case form. */
  lemma TaxonomyCaseInsensitive(magV: real, passband: string, taxonomy: string)
    ensures TransformVmag(magV, passband, taxonomy) == TransformVmag(magV, passband, Upper(taxonomy))
    ensures TransformVmag(magV, passband, taxonomy) == TransformVmag(magV, passband, Lower(taxonomy))
  {
    UpperOfCase(taxonomy);
  }

  /** The passband is case-sensitive: lower-case "y" and "u" are not in the
      table, while "Y" is, for every known taxonomy. */
  lemma PassbandCaseSensitive(magV: real, taxonomy: string)
    ensures TransformVmag(magV, "y", taxonomy) == None
    ensures TransformVmag(magV, "u", taxonomy) == None
    ensures TransformVmag(magV, "Y", taxonomy).Some? <==> Upper(taxonomy) in Taxonomies
  {
  }

  /** The default taxonomy 'Mean' with passband 'r' gives V - 0.230, and an
      unknown taxonomy gives None. */
  lemma TransformExamples(magV: real)
    ensures TransformVmag(magV, "r", "Mean") == Some(magV - 0.230)
    ensures TransformVmag(magV, "r", "mean") == Some(magV - 0.230)
    ensures TransformVmag(magV, "Y", "neo") == Some(magV - 0.314)
    ensures TransformVmag(magV, "r", "V") == None
  {
    assert Upper("Mean") == "MEAN";
    assert Upper("mean") == "MEAN";
    assert Upper("neo") == "NEO";
    assert Upper("V") == "V";
  }
}
