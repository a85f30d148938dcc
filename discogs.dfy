/**
 * The pure helpers of the Discogs client (repertoire/discogs.py): catalog and label
 * normalisation, the choice of the best search result, barcode cleaning, and the
 * extraction of year, cover, barcode, label, artists and tracks from a release.
 *
 * The release and search-result JSON objects are datatypes whose optional keys are
 * `Option`s; a list that is missing or `null` reads as the empty list (`or []`).
 */
module Discogs {
  import opened Wrappers
  import opened Text

  // ----- the JSON shapes read -----

  /** An entry of `identifiers`; a missing `value` reads as "". */
  datatype Identifier = Identifier(idType: Option<string>, value: string)

  datatype Image = Image(imageType: Option<string>, uri: Option<string>)

  datatype LabelEntry = LabelEntry(name: Option<string>, catno: Option<string>)

  datatype ArtistEntry = ArtistEntry(name: Option<string>, role: Option<string>)

  datatype TrackEntry = TrackEntry(title: Option<string>, position: Option<string>, duration: Option<string>)

  /** The keys of a release that the extractors read. */
  datatype Release = Release(
    released: Option<string>,
    year: Option<int>,
    identifiers: seq<Identifier>,
    barcodes: seq<string>,
    images: seq<Image>,
    labels: seq<LabelEntry>,
    artists: seq<ArtistEntry>,
    extraArtists: seq<ArtistEntry>,
    tracklist: seq<TrackEntry>)

  /** A search hit; a missing `catno` or `country` reads as "". */
  datatype SearchResult = SearchResult(id: int, catno: string, labels: seq<string>, country: string)

  /** One entry of the extracted track list. */
  datatype Track = Track(title: string, position: Option<string>, duration: Option<string>)

  /** Python truthiness of an optional string. */
  predicate Truthy(s: Option<string>)
  {
    s.Some? && s.value != []
  }

  // ----- catalog numbers -----

  /** The alphanumeric characters of `s`, in order. */
  function KeepAlnum(s: string): (r: string)
    ensures |r| <= |s|
    ensures forall i :: 0 <= i < |r| ==> IsAlnum(r[i])
  {
    if s == [] then [] else (if IsAlnum(s[0]) then [s[0]] else []) + KeepAlnum(s[1..])
  }

  /** Only digits and capital letters. */
  predicate UpperAlnum(s: string)
  {
    forall i :: 0 <= i < |s| ==> IsAlnum(s[i]) && !IsLowerLetter(s[i])
  }

  /** `_normalize_catalog`: the alphanumerics of the upper-cased value. The characters
      are upper-cased one at a time as they are kept, which is the same as upper-casing
      first (`NormalizeCatalogUpperThenKeep`), since case does not change whether a
      character is alphanumeric. */
  function NormalizeCatalog(value: string): (r: string)
    ensures |r| <= |value|
    ensures UpperAlnum(r)
  {
    if value == [] then []
    else (if IsAlnum(value[0]) then [UpperChar(value[0])] else []) + NormalizeCatalog(value[1..])
  }

  /** The definition agrees with Python's order of operations: upper-case, then keep the
      alphanumerics. */
  lemma {:induction false} NormalizeCatalogUpperThenKeep(value: string)
    ensures NormalizeCatalog(value) == KeepAlnum(Upper(value))
    decreases |value|
  {
    if value != [] {
      NormalizeCatalogUpperThenKeep(value[1..]);
      assert Upper(value)[1..] == Upper(value[1..]);
    }
  }

  /** Normalising a concatenation normalises each part. */
  lemma {:induction false} NormalizeCatalogConcat(a: string, b: string)
    ensures NormalizeCatalog(a + b) == NormalizeCatalog(a) + NormalizeCatalog(b)
    decreases |a|
  {
    if a != [] {
      assert (a + b)[1..] == a[1..] + b;
      NormalizeCatalogConcat(a[1..], b);
    } else {
      assert a + b == b;
    }
  }

  /** `_normalize_catalog` is idempotent. */
  lemma {:induction false} NormalizeCatalogIdempotent(value: string)
    ensures NormalizeCatalog(NormalizeCatalog(value)) == NormalizeCatalog(value)
    decreases |value|
  {
    if value != [] {
      NormalizeCatalogIdempotent(value[1..]);
      var head := if IsAlnum(value[0]) then [UpperChar(value[0])] else [];
      NormalizeCatalogConcat(head, NormalizeCatalog(value[1..]));
      if IsAlnum(value[0]) {
        assert head[1..] == [];
      }
    }
  }

  /** Deleting a pattern without alphanumerics (`str.replace(pat, "")`) does not change the
      normalised catalog number. */
  lemma {:induction false} NormalizeCatalogIgnoresDeleted(s: string, pat: string)
    requires pat != [] && NormalizeCatalog(pat) == []
    ensures NormalizeCatalog(ReplaceAll(s, pat, [])) == NormalizeCatalog(s)
    decreases |s|
  {
    if pat <= s {
      NormalizeCatalogIgnoresDeleted(s[|pat|..], pat);
      assert s == pat + s[|pat|..];
      NormalizeCatalogConcat(pat, s[|pat|..]);
      assert ReplaceAll(s, pat, []) == ReplaceAll(s[|pat|..], pat, []);
    } else if s != [] {
      NormalizeCatalogIgnoresDeleted(s[1..], pat);
      assert s == [s[0]] + s[1..];
      NormalizeCatalogConcat([s[0]], s[1..]);
      NormalizeCatalogConcat([s[0]], ReplaceAll(s[1..], pat, []));
    }
  }

  /** The catalog numbers `_search_by_catalog` sends, in order: the normalised value, then
      the normalised value with spaces, dashes and dots removed when that is non-empty and
      differs from the first (the comparison is made before normalising). */
  function CatalogVariants(catalogNumber: string): (r: seq<string>)
    ensures 1 <= |r| <= 2 && r[0] == NormalizeCatalog(catalogNumber)
  {
    var normalized := NormalizeCatalog(catalogNumber);
    var noPunctuation := ReplaceAll(ReplaceAll(ReplaceAll(catalogNumber, " ", ""), "-", ""), ".", "");
    if noPunctuation != [] && noPunctuation != normalized then [normalized, NormalizeCatalog(noPunctuation)]
    else [normalized]
  }

  /** The second variant always normalises to the same string as the first, so every
      search sends the same `catno`. */
  lemma CatalogVariantsAgree(catalogNumber: string)
    ensures forall v :: v in CatalogVariants(catalogNumber) ==> v == NormalizeCatalog(catalogNumber)
  {
    var s1 := ReplaceAll(catalogNumber, " ", "");
    var s2 := ReplaceAll(s1, "-", "");
    NormalizeCatalogIgnoresDeleted(catalogNumber, " ");
    NormalizeCatalogIgnoresDeleted(s1, "-");
    NormalizeCatalogIgnoresDeleted(s2, ".");
  }

  /** A piece of digits and capital letters normalises to itself. */
  lemma {:induction false} NormalizeCatalogPlain(piece: string)
    requires forall i :: 0 <= i < |piece| ==> IsDigit(piece[i]) || IsUpperLetter(piece[i])
    ensures NormalizeCatalog(piece) == piece
    decreases |piece|
  {
    if piece != [] {
      NormalizeCatalogPlain(piece[1..]);
    }
  }

  /** A piece without alphanumerics normalises to nothing. */
  lemma {:induction false} NormalizeCatalogDropped(piece: string)
    requires forall i :: 0 <= i < |piece| ==> !IsAlnum(piece[i])
    ensures NormalizeCatalog(piece) == []
    decreases |piece|
  {
    if piece != [] {
      NormalizeCatalogDropped(piece[1..]);
    }
  }

  /** Punctuation between two pieces disappears. */
  lemma NormalizeCatalogGlue(a: string, sep: string, b: string)
    requires NormalizeCatalog(sep) == []
    ensures NormalizeCatalog(a + sep + b) == NormalizeCatalog(a) + NormalizeCatalog(b)
  {
    NormalizeCatalogConcat(a + sep, b);
    NormalizeCatalogConcat(a, sep);
  }

  /** `test_normalize_catalog`: "DGG 439-947-2" normalises to "DGG4399472". */
  lemma NormalizeCatalogSpaced(a: string, b: string, c: string, d: string)
    requires a == "DGG" && b == "439" && c == "947" && d == "2"
    ensures NormalizeCatalog(a + " " + b + "-" + c + "-" + d) == a + b + c + d
  {
    NormalizeCatalogPlain(a);
    NormalizeCatalogPlain(b);
    NormalizeCatalogPlain(c);
    NormalizeCatalogPlain(d);
    NormalizeCatalogDropped(" ");
    NormalizeCatalogDropped("-");
    NormalizeCatalogGlue(a + " " + b + "-" + c, "-", d);
    NormalizeCatalogGlue(a + " " + b, "-", c);
    NormalizeCatalogGlue(a, " ", b);
  }

  /** `test_normalize_catalog`: "439.947.2" normalises to "4399472". */
  lemma NormalizeCatalogDotted(b: string, c: string, d: string)
    requires b == "439" && c == "947" && d == "2"
    ensures NormalizeCatalog(b + "." + c + "." + d) == b + c + d
  {
    NormalizeCatalogPlain(b);
    NormalizeCatalogPlain(c);
    NormalizeCatalogPlain(d);
    NormalizeCatalogDropped(".");
    NormalizeCatalogGlue(b + "." + c, ".", d);
    NormalizeCatalogGlue(b, ".", c);
  }

  /** `test_normalize_catalog`: "DGG-439-947-2" normalises to "DGG4399472"; any two pieces
      of digits and capitals joined by a dash lose the dash. */
  lemma NormalizeCatalogDashed(a: string, d: string)
    requires forall i :: 0 <= i < |a| ==> IsDigit(a[i]) || IsUpperLetter(a[i])
    requires forall i :: 0 <= i < |d| ==> IsDigit(d[i]) || IsUpperLetter(d[i])
    ensures NormalizeCatalog(a + "-" + d) == a + d
  {
    NormalizeCatalogPlain(a);
    NormalizeCatalogPlain(d);
    NormalizeCatalogDropped("-");
    NormalizeCatalogGlue(a, "-", d);
  }

  // ----- labels -----

  /** `_normalize_label`: lower-cased, whitespace cut from both ends. */
  function NormalizeLabel(value: string): (r: string)
    ensures Stripped(r)
    ensures forall i :: 0 <= i < |r| ==> !IsUpperLetter(r[i])
  {
    StripNoUpper(Lower(value));
    Strip(Lower(value))
  }

  /** Stripping cuts out a middle part, so it adds no capitals. */
  lemma StripNoUpper(s: string)
    requires forall k :: 0 <= k < |s| ==> !IsUpperLetter(s[k])
    ensures forall k :: 0 <= k < |Strip(s)| ==> !IsUpperLetter(Strip(s)[k])
  {
    var i, j := StripSlice(s);
    assert forall k :: 0 <= k < |Strip(s)| ==> Strip(s)[k] == s[i + k];
  }

  /** `_normalize_label` keeps a middle slice of the value, lower-cased; what it cuts
      from either end is whitespace only. */
  lemma NormalizeLabelSlice(value: string) returns (i: nat, j: nat)
    ensures i <= j <= |value|
    ensures AllSpace(value[..i]) && AllSpace(value[j..])
    ensures NormalizeLabel(value) == Lower(value[i..j])
  {
    var l := Lower(value);
    i, j := StripSlice(l);
    forall m | 0 <= m < i ensures IsSpace(value[..i][m]) {
      assert l[..i][m] == LowerChar(value[m]);
    }
    forall m | 0 <= m < |value| - j ensures IsSpace(value[j..][m]) {
      assert l[j..][m] == LowerChar(value[j + m]);
    }
    assert l[i..j] == Lower(value[i..j]);
  }

  /** `_normalize_label` is idempotent. */
  lemma NormalizeLabelIdempotent(value: string)
    ensures NormalizeLabel(NormalizeLabel(value)) == NormalizeLabel(value)
  {
    var r := NormalizeLabel(value);
    assert Lower(r) == r;
    StripStripped(r);
  }

  // ----- choosing the best search result -----

  /** The sort key of a result; lower is better on each component. */
  datatype Score = Score(catalogMatch: int, countryScore: int, labelMatch: int)

  /** Lexicographic order on scores. */
  predicate ScoreLess(a: Score, b: Score)
  {
    a.catalogMatch < b.catalogMatch ||
    (a.catalogMatch == b.catalogMatch &&
      (a.countryScore < b.countryScore || (a.countryScore == b.countryScore && a.labelMatch < b.labelMatch)))
  }

  /** 0 for a country naming the Netherlands, 1 for Europe, 2 otherwise. */
  function CountryScore(country: string): (r: int)
    ensures 0 <= r <= 2
    ensures r == 0 <==> Contains(Lower(country), "netherlands")
    ensures r == 1 <==> !Contains(Lower(country), "netherlands") && Contains(Lower(country), "europe")
  {
    var c := Lower(country);
    if Contains(c, "netherlands") then 0 else if Contains(c, "europe") then 1 else 2
  }

  /** The normalised catalog hint, "" when none was given. */
  function CatalogHint(catalogNumber: Option<string>): (r: string)
    ensures UpperAlnum(r)
    ensures !Truthy(catalogNumber) ==> r == []
  {
    if Truthy(catalogNumber) then NormalizeCatalog(catalogNumber.value) else ""
  }

  /** The normalised label hint, "" when none was given. */
  function LabelHint(labelName: Option<string>): (r: string)
    ensures Stripped(r)
    ensures !Truthy(labelName) ==> r == []
  {
    if Truthy(labelName) then NormalizeLabel(labelName.value) else ""
  }

  /** The labels of a result, normalised. */
  function NormalizedLabels(labels: seq<string>): (r: seq<string>)
    ensures |r| == |labels| && forall i :: 0 <= i < |labels| ==> r[i] == NormalizeLabel(labels[i])
  {
    seq(|labels|, i requires 0 <= i < |labels| => NormalizeLabel(labels[i]))
  }

  /** `score_result`: a catalog match and a label match count only against a non-empty hint. */
  function ScoreOf(item: SearchResult, labelNorm: string, catNorm: string): (r: Score)
    ensures r.catalogMatch == 0 <==> catNorm != [] && NormalizeCatalog(item.catno) == catNorm
    ensures r.labelMatch == 0 <==> labelNorm != [] && labelNorm in NormalizedLabels(item.labels)
    ensures r.catalogMatch in {0, 1} && r.labelMatch in {0, 1}
    ensures r.countryScore == CountryScore(item.country)
  {
    var catMatch := if catNorm != [] && NormalizeCatalog(item.catno) == catNorm then 0 else 1;
    var labelMatch := if labelNorm != [] && labelNorm in NormalizedLabels(item.labels) then 0 else 1;
    Score(catMatch, CountryScore(item.country), labelMatch)
  }

  /** A better country outranks a label match: between results with the same catalog
      match, the one with the better country score sorts first whatever the labels. */
  lemma CountryOutranksLabel(a: SearchResult, b: SearchResult, labelNorm: string, catNorm: string)
    requires ScoreOf(a, labelNorm, catNorm).catalogMatch == ScoreOf(b, labelNorm, catNorm).catalogMatch
    requires CountryScore(a.country) < CountryScore(b.country)
    ensures ScoreLess(ScoreOf(a, labelNorm, catNorm), ScoreOf(b, labelNorm, catNorm))
    ensures ScoreOf(a, labelNorm, catNorm).labelMatch == 1 && ScoreOf(b, labelNorm, catNorm).labelMatch == 0 ==>
      ScoreLess(ScoreOf(a, labelNorm, catNorm), ScoreOf(b, labelNorm, catNorm))
  {
  }

  /** With no catalog number and no label given every result scores 1 on both keys, so
      only the country decides. */
  lemma NoHintsOnlyCountry(item: SearchResult)
    ensures ScoreOf(item, LabelHint(None), CatalogHint(None)) == Score(1, CountryScore(item.country), 1)
    ensures ScoreOf(item, LabelHint(Some("")), CatalogHint(Some(""))) == Score(1, CountryScore(item.country), 1)
  {
  }

  /** `k` holds a smallest score, and every earlier score is strictly larger. */
  predicate BestAt(scores: seq<Score>, k: int)
  {
    0 <= k < |scores| &&
    (forall j :: 0 <= j < |scores| ==> !ScoreLess(scores[j], scores[k])) &&
    (forall j :: 0 <= j < k ==> ScoreLess(scores[k], scores[j]))
  }

  /** The position of the smallest score, the first one on ties. */
  function BestIndex(scores: seq<Score>): (k: nat)
    requires scores != []
    ensures BestAt(scores, k)
    decreases |scores|
  {
    if |scores| == 1 then 0
    else
      var k := BestIndex(scores[..|scores| - 1]);
      if ScoreLess(scores[|scores| - 1], scores[k]) then |scores| - 1 else k
  }

  function ScoresOf(results: seq<SearchResult>, labelNorm: string, catNorm: string): (r: seq<Score>)
    ensures |r| == |results| && forall i :: 0 <= i < |results| ==> r[i] == ScoreOf(results[i], labelNorm, catNorm)
  {
    seq(|results|, i requires 0 <= i < |results| => ScoreOf(results[i], labelNorm, catNorm))
  }

  /** `_choose_best_result`: None exactly for no results; otherwise the result with the
      lexicographically smallest score, the earliest one on ties (`sorted` on
      (score, index)). */
  function ChooseBestResult(results: seq<SearchResult>, labelName: Option<string>, catalogNumber: Option<string>): (r: Option<SearchResult>)
    ensures r.None? <==> results == []
    ensures r.Some? ==>
      exists i :: BestAt(ScoresOf(results, LabelHint(labelName), CatalogHint(catalogNumber)), i) && r.value == results[i]
  {
    if results == [] then None
    else
      var scores := ScoresOf(results, LabelHint(labelName), CatalogHint(catalogNumber));
      Some(results[BestIndex(scores)])
  }

  /** A string contains only patterns no longer than itself. */
  lemma {:induction false} ContainsLength(s: string, sub: string)
    requires Contains(s, sub)
    ensures |sub| <= |s|
    decreases |s|
  {
    if !(sub <= s) {
      ContainsLength(s[1..], sub);
    }
  }

  lemma NetherlandsFirst(country: string)
    requires country == "Netherlands"
    ensures CountryScore(country) == 0
  {
    assert Lower(country) == "netherlands";
  }

  lemma GermanyNotFirst(country: string)
    requires country == "Germany"
    ensures CountryScore(country) >= 1
  {
    if Contains(Lower(country), "netherlands") {
      ContainsLength(Lower(country), "netherlands");
      assert false;
    }
  }

  lemma ExampleCatalogHints(catalogNumber: string, other: string)
    requires catalogNumber == "DGG-2" && other == "DGG-1"
    ensures CatalogHint(Some(catalogNumber)) == "DGG2" && NormalizeCatalog(other) == "DGG1"
  {
    NormalizeCatalogDashed("DGG", "2");
    NormalizeCatalogDashed("DGG", "1");
    assert "DGG" + "-" + "2" == catalogNumber;
    assert "DGG" + "-" + "1" == other;
  }

  /** A label whose first character is not whitespace has a non-empty hint. */
  lemma LabelHintNonEmpty(labelName: string)
    requires labelName != [] && !IsSpace(labelName[0])
    ensures LabelHint(Some(labelName)) != []
  {
    assert Lower(labelName)[0] == LowerChar(labelName[0]);
  }

  /** `test_choose_best_result`: two results match both the catalog number and the label,
      and the Dutch one wins over the German one. */
  lemma ChooseBestResultExample(usa: SearchResult, germany: SearchResult, netherlands: SearchResult,
                                labelName: string, catalogNumber: string)
    requires labelName == "Deutsche Grammophon" && catalogNumber == "DGG-2"
    requires usa == SearchResult(1, "DGG-1", ["Other Label"], "USA")
    requires germany == SearchResult(2, catalogNumber, [labelName], "Germany")
    requires netherlands == SearchResult(3, catalogNumber, [labelName], "Netherlands")
    ensures ChooseBestResult([usa, germany, netherlands], Some(labelName), Some(catalogNumber)) == Some(netherlands)
  {
    var ln := LabelHint(Some(labelName));
    var cn := CatalogHint(Some(catalogNumber));
    ExampleCatalogHints(catalogNumber, usa.catno);
    assert "DGG1"[3] != "DGG2"[3];
    LabelHintNonEmpty(labelName);
    assert NormalizedLabels(germany.labels)[0] == ln;
    NetherlandsFirst(netherlands.country);
    GermanyNotFirst(germany.country);
    BestOfThree(ScoresOf([usa, germany, netherlands], ln, cn));
  }

  /** Of three scores where only the last two match the catalog number and the last one
      also has the better country, the last is chosen. */
  lemma BestOfThree(scores: seq<Score>)
    requires |scores| == 3 && scores[0].catalogMatch == 1
    requires scores[1].catalogMatch == 0 && scores[1].countryScore >= 1
    requires scores[2] == Score(0, 0, 0)
    ensures BestIndex(scores) == 2
  {
  }

  // ----- barcodes -----

  /** The decimal digits of `s`, in order. */
  function Digits(s: string): (r: string)
    ensures |r| <= |s| && AllDigits(r)
    ensures AllDigits(s) ==> r == s
  {
    if s == [] then [] else (if IsDigit(s[0]) then [s[0]] else []) + Digits(s[1..])
  }

  /** Filtering digits keeps a digit and drops anything else. */
  lemma DigitsSingle(c: char)
    ensures Digits([c]) == if IsDigit(c) then [c] else []
  {
    assert [c][1..] == [];
  }

  /** Filtering digits keeps their order: it distributes over concatenation. */
  lemma {:induction false} DigitsConcat(a: string, b: string)
    ensures Digits(a + b) == Digits(a) + Digits(b)
  {
    if a == [] {
      assert a + b == b;
    } else {
      assert (a + b)[0] == a[0];
      assert (a + b)[1..] == a[1..] + b;
      DigitsConcat(a[1..], b);
    }
  }

  /** `_sanitize_ean`: the digits of the value when there are at least 12 (no check digit
      is verified). */
  function SanitizeEan(value: string): (r: Option<string>)
    ensures r.Some? <==> |Digits(value)| >= 12
    ensures r.Some? ==> r.value == Digits(value) && AllDigits(r.value) && |r.value| >= 12
  {
    var cleaned := Digits(value);
    if |cleaned| >= 12 then Some(cleaned) else None
  }

  /** A sanitised code sanitises to itself. */
  lemma SanitizeEanIdempotent(value: string)
    requires SanitizeEan(value).Some?
    ensures SanitizeEan(SanitizeEan(value).value) == SanitizeEan(value)
  {
  }

  /** `s` lower-cases to `word`, compared character by character. */
  predicate LowerIs(s: string, word: string)
  {
    |s| == |word| && forall i :: 0 <= i < |s| ==> LowerChar(s[i]) == word[i]
  }

  lemma LowerIsLower(s: string, word: string)
    ensures LowerIs(s, word) <==> Lower(s) == word
  {
    if Lower(s) == word {
      assert forall i :: 0 <= i < |s| ==> Lower(s)[i] == word[i];
    }
  }

  /** An identifier type naming a barcode, case-insensitively; a missing type reads as "". */
  predicate BarcodeType(idType: Option<string>)
  {
    var t := if idType.Some? then idType.value else "";
    LowerIs(t, "barcode") || LowerIs(t, "ean") || LowerIs(t, "upc")
  }

  /** The code an identifier contributes: a non-blank value of a barcode type that sanitises. */
  function IdentifierEan(id: Identifier): Option<string>
  {
    var value := Strip(id.value);
    if value == [] then None
    else if BarcodeType(id.idType) then SanitizeEan(value)
    else None
  }

  function BarcodeEan(barcode: string): Option<string>
  {
    SanitizeEan(Strip(barcode))
  }

  /** Whitespace holds no digits. */
  lemma {:induction false} DigitsOfSpaces(s: string)
    requires AllSpace(s)
    ensures Digits(s) == []
  {
    if s != [] {
      assert IsSpace(s[0]);
      DigitsOfSpaces(s[1..]);
    }
  }

  /** Stripping a value before sanitising it changes nothing: the cut whitespace holds no
      digits. So an identifier of a barcode type gives the code of its whole value, and a
      barcode string gives the code of its own digits. */
  lemma SanitizeStripped(value: string)
    ensures SanitizeEan(Strip(value)) == SanitizeEan(value)
  {
    var i, j := StripSlice(value);
    var a, m, b := value[..i], value[i..j], value[j..];
    assert value == (a + m) + b;
    DigitsConcat(a, m);
    DigitsConcat(a + m, b);
    DigitsOfSpaces(a);
    DigitsOfSpaces(b);
    assert Digits(value) == Digits(m);
  }

  lemma IdentifierEanWhole(id: Identifier)
    ensures IdentifierEan(id) == if BarcodeType(id.idType) then SanitizeEan(id.value) else None
  {
    SanitizeStripped(id.value);
    if Strip(id.value) == [] {
      assert Digits(Strip(id.value)) == [];
    }
  }

  lemma BarcodeEanWhole(barcode: string)
    ensures BarcodeEan(barcode) == SanitizeEan(barcode)
  {
    SanitizeStripped(barcode);
  }

  /** The first present value of `s`. */
  function FirstSome<T>(s: seq<Option<T>>): Option<T>
  {
    if s == [] then None
    else if s[0].Some? then s[0]
    else FirstSome(s[1..])
  }

  /** A present value with nothing present before it is the first one. */
  lemma {:induction false} FirstSomeAt<T>(s: seq<Option<T>>, i: int)
    requires 0 <= i < |s| && s[i].Some?
    requires forall j :: 0 <= j < i ==> s[j].None?
    ensures FirstSome(s) == s[i]
    decreases i
  {
    if i > 0 {
      assert s[0].None?;
      FirstSomeAt(s[1..], i - 1);
    }
  }

  /** Nothing is found exactly when nothing is present. */
  lemma {:induction false} FirstSomeNone<T>(s: seq<Option<T>>)
    ensures FirstSome(s).None? <==> forall j :: 0 <= j < |s| ==> s[j].None?
    decreases |s|
  {
    if s != [] && s[0].None? {
      FirstSomeNone(s[1..]);
      assert forall j :: 1 <= j < |s| ==> s[j] == s[1..][j - 1];
    }
  }

  /** A found value is present at a position with nothing present before it. */
  lemma {:induction false} FirstSomeFound<T>(s: seq<Option<T>>) returns (i: int)
    requires FirstSome(s).Some?
    ensures 0 <= i < |s| && s[i] == FirstSome(s) && forall j :: 0 <= j < i ==> s[j].None?
    decreases |s|
  {
    if s[0].Some? {
      i := 0;
    } else {
      var k := FirstSomeFound(s[1..]);
      i := k + 1;
      assert forall j :: 1 <= j < i ==> s[j] == s[1..][j - 1];
    }
  }

  function IdentifierEans(ids: seq<Identifier>): (r: seq<Option<string>>)
    ensures |r| == |ids| && forall i :: 0 <= i < |ids| ==> r[i] == IdentifierEan(ids[i])
  {
    seq(|ids|, i requires 0 <= i < |ids| => IdentifierEan(ids[i]))
  }

  function BarcodeEans(barcodes: seq<string>): (r: seq<Option<string>>)
    ensures |r| == |barcodes| && forall i :: 0 <= i < |barcodes| ==> r[i] == BarcodeEan(barcodes[i])
  {
    seq(|barcodes|, i requires 0 <= i < |barcodes| => BarcodeEan(barcodes[i]))
  }

  /** What `_extract_ean` returns: the first identifier code, else the first barcode code. */
  function EanOf(release: Release): Option<string>
  {
    var fromIdentifiers := FirstSome(IdentifierEans(release.identifiers));
    if fromIdentifiers.Some? then fromIdentifiers else FirstSome(BarcodeEans(release.barcodes))
  }

  /** A found code is at least 12 digits; there is none exactly when no identifier and no
      barcode yields one; an identifier code always wins over the barcodes. */
  lemma EanOfShape(release: Release)
    ensures EanOf(release).Some? ==> AllDigits(EanOf(release).value) && |EanOf(release).value| >= 12
    ensures EanOf(release).None? <==>
      (forall i :: 0 <= i < |release.identifiers| ==> IdentifierEan(release.identifiers[i]).None?) &&
      (forall i :: 0 <= i < |release.barcodes| ==> BarcodeEan(release.barcodes[i]).None?)
    ensures (exists i :: 0 <= i < |release.identifiers| && IdentifierEan(release.identifiers[i]).Some?) ==>
      EanOf(release) == FirstSome(IdentifierEans(release.identifiers))
  {
    var ids := IdentifierEans(release.identifiers);
    var bars := BarcodeEans(release.barcodes);
    FirstSomeNone(ids);
    FirstSomeNone(bars);
    if FirstSome(ids).Some? {
      var i := FirstSomeFound(ids);
      assert IdentifierEan(release.identifiers[i]).Some?;
    } else if FirstSome(bars).Some? {
      var i := FirstSomeFound(bars);
      assert BarcodeEan(release.barcodes[i]).Some?;
    }
  }

  /** Identifiers of another type never contribute, whatever their value. */
  lemma OtherTypesIgnored(id: Identifier)
    requires !BarcodeType(id.idType)
    ensures IdentifierEan(id).None?
  {
  }

  /** The identifier loop of `_extract_ean`. */
  method ScanIdentifiers(identifiers: seq<Identifier>) returns (ean: Option<string>)
    ensures ean == FirstSome(IdentifierEans(identifiers))
  {
    ghost var codes := IdentifierEans(identifiers);
    var i := 0;
    while i < |identifiers|
      invariant 0 <= i <= |identifiers|
      invariant FirstSome(codes) == FirstSome(codes[i..])
    {
      var code := IdentifierEan(identifiers[i]);
      assert codes[i..][0] == code && codes[i..][1..] == codes[i + 1..];
      if code.Some? {
        return code;
      }
      i := i + 1;
    }
    return None;
  }

  /** The barcode loop of `_extract_ean`. */
  method ScanBarcodes(barcodes: seq<string>) returns (ean: Option<string>)
    ensures ean == FirstSome(BarcodeEans(barcodes))
  {
    var k := 0;
    while k < |barcodes|
      invariant 0 <= k <= |barcodes|
      invariant forall j :: 0 <= j < k ==> BarcodeEans(barcodes)[j].None?
    {
      var code := BarcodeEan(barcodes[k]);
      assert BarcodeEans(barcodes)[k] == code;
      if code.Some? {
        FirstSomeAt(BarcodeEans(barcodes), k);
        return code;
      }
      k := k + 1;
    }
    FirstSomeNone(BarcodeEans(barcodes));
    return None;
  }

  /** `_extract_ean`: the identifiers first, then the barcodes. */
  method ExtractEan(release: Release) returns (ean: Option<string>)
    ensures ean == EanOf(release)
  {
    ean := ScanIdentifiers(release.identifiers);
    if ean.None? {
      ean := ScanBarcodes(release.barcodes);
    }
  }

  /** `test_extract_ean`: a 12-digit barcode identifier is returned as it is. */
  lemma EanExample(code: string)
    requires code == "028941394726"
    ensures EanOf(Release(None, None, [Identifier(Some("barcode"), code)], [], [], [], [], [], [])) == Some(code)
  {
    assert Stripped(code);
    StripStripped(code);
    assert AllDigits(code);
    assert LowerIs("barcode", "barcode");
    var ids := IdentifierEans([Identifier(Some("barcode"), code)]);
    assert ids[0] == Some(code);
    FirstSomeAt(ids, 0);
  }

  /** `test_extract_ean_too_short`: three digits are not a barcode. */
  lemma EanTooShort(code: string)
    requires code == "123"
    ensures EanOf(Release(None, None, [Identifier(Some("barcode"), code)], [], [], [], [], [], [])).None?
  {
    assert Stripped(code);
    StripStripped(code);
    assert |Digits(code)| <= 3;
    var ids := IdentifierEans([Identifier(Some("barcode"), code)]);
    assert ids[0].None?;
    FirstSomeNone(ids);
  }

  // ----- year, cover, label -----

  /** `_extract_year`: the first four characters of a non-empty `released`, else the
      decimal text of a non-zero `year`, else None. */
  function ExtractYear(release: Release): (r: Option<string>)
    ensures Truthy(release.released) ==> r.Some? && r.value <= release.released.value && |r.value| == Min(4, |release.released.value|)
    ensures !Truthy(release.released) ==> (r.Some? <==> release.year.Some? && release.year.value != 0)
  {
    if Truthy(release.released) then
      var s := release.released.value;
      Some(if |s| <= 4 then s else s[..4])
    else if release.year.Some? && release.year.value != 0 then Some(IntToDecimal(release.year.value))
    else None
  }

  function Min(a: int, b: int): int
  {
    if a <= b then a else b
  }

  /** Without a `released` date the year text reads back as the `year` number. */
  lemma ExtractYearReadsBack(release: Release)
    requires !Truthy(release.released) && release.year.Some? && release.year.value > 0
    ensures ExtractYear(release).Some? && AllDigits(ExtractYear(release).value)
    ensures DecimalValue(ExtractYear(release).value) == release.year.value
  {
    DecimalRoundTrip(release.year.value);
  }

  lemma YearText(n: nat)
    requires n == 2020
    ensures NatToDecimal(n) == "2020"
  {
    assert DigitChar(2) == '2' && DigitChar(0) == '0';
    assert NatToDecimal(2) == "2";
    assert NatToDecimal(20) == "20";
    assert NatToDecimal(202) == "202";
  }

  /** `test_extract_year` */
  lemma ExtractYearExamples()
    ensures ExtractYear(Release(Some("1992-01-15"), None, [], [], [], [], [], [], [])) == Some("1992")
    ensures ExtractYear(Release(None, Some(2020), [], [], [], [], [], [], [])) == Some("2020")
    ensures ExtractYear(Release(None, None, [], [], [], [], [], [], [])) == None
  {
    assert "1992-01-15"[..4] == "1992";
    YearText(2020);
  }

  predicate HasUri(image: Image)
  {
    Truthy(image.uri)
  }

  function PrimaryUris(images: seq<Image>): (r: seq<Option<string>>)
    ensures |r| == |images| && forall i :: 0 <= i < |images| ==>
      r[i] == (if images[i].imageType == Some("primary") && HasUri(images[i]) then images[i].uri else None)
  {
    seq(|images|, i requires 0 <= i < |images| =>
      if images[i].imageType == Some("primary") && HasUri(images[i]) then images[i].uri else None)
  }

  function AnyUris(images: seq<Image>): (r: seq<Option<string>>)
    ensures |r| == |images| && forall i :: 0 <= i < |images| ==> r[i] == (if HasUri(images[i]) then images[i].uri else None)
  {
    seq(|images|, i requires 0 <= i < |images| => if HasUri(images[i]) then images[i].uri else None)
  }

  /** What `_extract_cover` returns: the first primary image's uri, else the first uri. */
  function CoverOf(release: Release): Option<string>
  {
    var primary := FirstSome(PrimaryUris(release.images));
    if primary.Some? then primary else FirstSome(AnyUris(release.images))
  }

  /** A cover is a non-empty uri of one of the images; there is none exactly when no image
      has a uri; a primary image with a uri wins over every other image. */
  lemma CoverOfShape(release: Release)
    ensures CoverOf(release).Some? ==> (CoverOf(release).value != [] &&
      exists i :: 0 <= i < |release.images| && release.images[i].uri == CoverOf(release))
    ensures CoverOf(release).None? <==> forall i :: 0 <= i < |release.images| ==> !HasUri(release.images[i])
    ensures (exists i :: 0 <= i < |release.images| && release.images[i].imageType == Some("primary") && HasUri(release.images[i])) ==>
      exists k :: 0 <= k < |release.images| && release.images[k].imageType == Some("primary") &&
        release.images[k].uri == CoverOf(release)
  {
    var primary := PrimaryUris(release.images);
    var any := AnyUris(release.images);
    FirstSomeNone(primary);
    FirstSomeNone(any);
    if FirstSome(primary).Some? {
      var i := FirstSomeFound(primary);
      assert release.images[i].uri == CoverOf(release);
    } else {
      if FirstSome(any).Some? {
        var i := FirstSomeFound(any);
        assert release.images[i].uri == CoverOf(release);
      } else {
        assert forall i :: 0 <= i < |release.images| ==> any[i].None?;
      }
    }
  }

  /** `_extract_cover`, scanning for a primary image and then for any image. */
  method ExtractCover(release: Release) returns (cover: Option<string>)
    ensures cover == CoverOf(release)
  {
    var images := release.images;
    var i := 0;
    while i < |images|
      invariant 0 <= i <= |images|
      invariant forall j :: 0 <= j < i ==> PrimaryUris(images)[j].None?
    {
      if images[i].imageType == Some("primary") && HasUri(images[i]) {
        FirstSomeAt(PrimaryUris(images), i);
        return images[i].uri;
      }
      i := i + 1;
    }
    FirstSomeNone(PrimaryUris(images));
    i := 0;
    while i < |images|
      invariant 0 <= i <= |images|
      invariant forall j :: 0 <= j < i ==> AnyUris(images)[j].None?
    {
      if HasUri(images[i]) {
        FirstSomeAt(AnyUris(images), i);
        return images[i].uri;
      }
      i := i + 1;
    }
    FirstSomeNone(AnyUris(images));
    return None;
  }

  /** `_extract_label`: the first label's name and catalog number, or (None, None). */
  function ExtractLabel(release: Release): (r: (Option<string>, Option<string>))
    ensures release.labels == [] ==> r == (None, None)
    ensures release.labels != [] ==> r.0 == release.labels[0].name && r.1 == release.labels[0].catno
  {
    if release.labels != [] then (release.labels[0].name, release.labels[0].catno) else (None, None)
  }

  // ----- artists and tracks -----

  /** The truthy artist names, in order. */
  function ArtistNames(artists: seq<ArtistEntry>): (r: seq<string>)
    ensures |r| <= |artists|
    ensures forall i :: 0 <= i < |r| ==> r[i] != []
    ensures r == [] <==> forall i :: 0 <= i < |artists| ==> !Truthy(artists[i].name)
    decreases |artists|
  {
    if artists == [] then []
    else
      var rest := ArtistNames(artists[..|artists| - 1]);
      var a := artists[|artists| - 1];
      assert forall i :: 0 <= i < |artists| - 1 ==> artists[..|artists| - 1][i] == artists[i];
      rest + (if Truthy(a.name) then [a.name.value] else [])
  }

  /** An extra artist's credit: "name (role)", or the bare name without a role. */
  function Credit(name: string, role: Option<string>): (r: string)
    ensures name <= r
    ensures Truthy(role) ==> r == name + " (" + role.value + ")"
    ensures !Truthy(role) ==> r == name
  {
    if Truthy(role) then name + " (" + role.value + ")" else name
  }

  /** The credits of the extra artists that have a name, in order. */
  function ExtraCredits(extra: seq<ArtistEntry>): (r: seq<string>)
    ensures |r| <= |extra|
    decreases |extra|
  {
    if extra == [] then []
    else
      var rest := ExtraCredits(extra[..|extra| - 1]);
      var a := extra[|extra| - 1];
      rest + (if Truthy(a.name) then [Credit(a.name.value, a.role)] else [])
  }

  /** What `_extract_artists` returns: the names joined with "; " (None when there are
      none) and the extra artists' credits. */
  function ArtistsOf(release: Release): (r: (Option<string>, seq<string>))
    ensures r.0.None? <==> forall i :: 0 <= i < |release.artists| ==> !Truthy(release.artists[i].name)
    ensures r.0.Some? ==> r.0.value == Join("; ", ArtistNames(release.artists))
    ensures r.1 == ExtraCredits(release.extraArtists)
  {
    var names := ArtistNames(release.artists);
    (if names == [] then None else Some(Join("; ", names)), ExtraCredits(release.extraArtists))
  }

  /** The joined names start with the first name; a single name is returned as it is. */
  lemma ArtistsJoined(release: Release)
    requires ArtistsOf(release).0.Some?
    ensures ArtistNames(release.artists) != [] && ArtistNames(release.artists)[0] <= ArtistsOf(release).0.value
    ensures |ArtistNames(release.artists)| == 1 ==> ArtistsOf(release).0.value == ArtistNames(release.artists)[0]
  {
    JoinEnds("; ", ArtistNames(release.artists));
  }

  /** One artist gives its name when it has one, and nothing otherwise. */
  lemma ArtistNamesSingle(a: ArtistEntry)
    ensures ArtistNames([a]) == if Truthy(a.name) then [a.name.value] else []
  {
    assert [a][..0] == [];
  }

  /** One extra artist gives its credit when it has a name, and nothing otherwise. */
  lemma ExtraCreditsSingle(a: ArtistEntry)
    ensures ExtraCredits([a]) == if Truthy(a.name) then [Credit(a.name.value, a.role)] else []
  {
    assert [a][..0] == [];
  }

  /** A named artist added at the end of a release that already has names appends
      "; " and its name to the joined names. */
  lemma ArtistsOfSnoc(release: Release, a: ArtistEntry)
    requires ArtistsOf(release).0.Some?
    requires Truthy(a.name)
    ensures ArtistsOf(release.(artists := release.artists + [a])).0
         == Some(ArtistsOf(release).0.value + "; " + a.name.value)
  {
    var names := ArtistNames(release.artists);
    ArtistNamesConcat(release.artists, [a]);
    ArtistNamesSingle(a);
    JoinSnoc("; ", names, a.name.value);
  }

  /** Both lists keep the order of the release: they distribute over concatenation. */
  lemma {:induction false} ArtistNamesConcat(a: seq<ArtistEntry>, b: seq<ArtistEntry>)
    ensures ArtistNames(a + b) == ArtistNames(a) + ArtistNames(b)
    decreases |b|
  {
    if b == [] {
      assert a + b == a;
    } else {
      assert (a + b)[..|a + b| - 1] == a + b[..|b| - 1];
      ArtistNamesConcat(a, b[..|b| - 1]);
    }
  }

  lemma {:induction false} ExtraCreditsConcat(a: seq<ArtistEntry>, b: seq<ArtistEntry>)
    ensures ExtraCredits(a + b) == ExtraCredits(a) + ExtraCredits(b)
    decreases |b|
  {
    if b == [] {
      assert a + b == a;
    } else {
      assert (a + b)[..|a + b| - 1] == a + b[..|b| - 1];
      ExtraCreditsConcat(a, b[..|b| - 1]);
    }
  }

  /** `_extract_artists`, collecting names and credits in two loops. */
  method ExtractArtists(release: Release) returns (artists: Option<string>, extra: seq<string>)
    ensures (artists, extra) == ArtistsOf(release)
  {
    var names: seq<string> := [];
    var i := 0;
    while i < |release.artists|
      invariant 0 <= i <= |release.artists|
      invariant names == ArtistNames(release.artists[..i])
    {
      assert release.artists[..i + 1][..i] == release.artists[..i];
      var name := release.artists[i].name;
      if Truthy(name) {
        names := names + [name.value];
      }
      i := i + 1;
    }
    assert release.artists[..i] == release.artists;
    extra := [];
    i := 0;
    while i < |release.extraArtists|
      invariant 0 <= i <= |release.extraArtists|
      invariant extra == ExtraCredits(release.extraArtists[..i])
    {
      assert release.extraArtists[..i + 1][..i] == release.extraArtists[..i];
      var name := release.extraArtists[i].name;
      var role := release.extraArtists[i].role;
      if Truthy(name) {
        extra := extra + [if Truthy(role) then name.value + " (" + role.value + ")" else name.value];
      }
      i := i + 1;
    }
    assert release.extraArtists[..i] == release.extraArtists;
    artists := if names == [] then None else Some(Join("; ", names));
  }

  /** The tracks that have a title, in order. */
  function TitledTracks(tracks: seq<TrackEntry>): (r: seq<Track>)
    ensures |r| <= |tracks|
    ensures forall i :: 0 <= i < |r| ==> r[i].title != []
    ensures (forall i :: 0 <= i < |tracks| ==> Truthy(tracks[i].title)) ==> |r| == |tracks|
    decreases |tracks|
  {
    if tracks == [] then []
    else
      var rest := TitledTracks(tracks[..|tracks| - 1]);
      var t := tracks[|tracks| - 1];
      assert forall i :: 0 <= i < |tracks| - 1 ==> tracks[..|tracks| - 1][i] == tracks[i];
      rest + (if Truthy(t.title) then [Track(t.title.value, t.position, t.duration)] else [])
  }

  /** The track list keeps the release's order: it distributes over concatenation. */
  lemma {:induction false} TitledTracksConcat(a: seq<TrackEntry>, b: seq<TrackEntry>)
    ensures TitledTracks(a + b) == TitledTracks(a) + TitledTracks(b)
    decreases |b|
  {
    if b == [] {
      assert a + b == a;
    } else {
      assert (a + b)[..|a + b| - 1] == a + b[..|b| - 1];
      TitledTracksConcat(a, b[..|b| - 1]);
    }
  }

  /** A track without a title is dropped, one with a title is kept whole. */
  lemma TitledTrackSingle(t: TrackEntry)
    ensures TitledTracks([t]) == if Truthy(t.title) then [Track(t.title.value, t.position, t.duration)] else []
  {
    assert [t][..0] == [];
  }

  /** `_extract_tracklist` */
  method ExtractTracklist(release: Release) returns (tracks: seq<Track>)
    ensures tracks == TitledTracks(release.tracklist)
  {
    tracks := [];
    var i := 0;
    while i < |release.tracklist|
      invariant 0 <= i <= |release.tracklist|
      invariant tracks == TitledTracks(release.tracklist[..i])
    {
      assert release.tracklist[..i + 1][..i] == release.tracklist[..i];
      var track := release.tracklist[i];
      if Truthy(track.title) {
        tracks := tracks + [Track(track.title.value, track.position, track.duration)];
      }
      i := i + 1;
    }
    assert release.tracklist[..i] == release.tracklist;
  }
}
