/** The name of the CSV file a generated dataset is saved under:
    "synthetic_", the dataset type lower-cased with its spaces turned into
    underscores, "_", the requested size in decimal, and ".csv". */
module Filenames {
  import opened Decimal
  import Seqs
  import Prompts

  predicate IsUpper(c: char) {
    'A' <= c <= 'Z'
  }

  /** `str.lower()` on one character, for the ASCII letters. */
  function LowerChar(c: char): (l: char)
    ensures !IsUpper(l)
    ensures IsUpper(c) ==> (l as int) == (c as int) + 32
    ensures !IsUpper(c) ==> l == c
  {
    if IsUpper(c) then ((c as int) + 32) as char else c
  }

  /** `str.lower()`: every character lower-cased, nothing added or removed. */
  function Lower(s: string): (r: string)
    ensures |r| == |s|
    ensures forall i :: 0 <= i < |s| ==> r[i] == LowerChar(s[i])
  {
    if s == [] then [] else [LowerChar(s[0])] + Lower(s[1..])
  }

  /** `str.replace(from, to)` for a one-character `from` and `to`: every
      occurrence of `from` becomes `to`, everything else stays. */
  function ReplaceChar(s: string, from: char, to: char): (r: string)
    ensures |r| == |s|
    ensures forall i :: 0 <= i < |s| ==> r[i] == (if s[i] == from then to else s[i])
  {
    if s == [] then [] else [if s[0] == from then to else s[0]] + ReplaceChar(s[1..], from, to)
  }

  /** The dataset-type part of the file name. */
  function Slug(datasetType: string): (r: string)
    ensures |r| == |datasetType|
    ensures forall i :: 0 <= i < |r| ==> r[i] != ' ' && !IsUpper(r[i])
    ensures forall i :: 0 <= i < |r| ==>
      r[i] == (if datasetType[i] == ' ' then '_' else LowerChar(datasetType[i]))
  {
    ReplaceChar(Lower(datasetType), ' ', '_')
  }

  const Prefix: string := "synthetic_"
  const Extension: string := ".csv"

  /** The file name `generate_dataset_ui` writes the dataset to:
      "synthetic_", the slug, "_" and the decimal size, and ".csv", in that
      order and with nothing else. */
  function OutputFilename(datasetType: string, size: int): (f: string)
    ensures |f| == |Prefix| + |datasetType| + 1 + |IntToString(size)| + |Extension|
    ensures Seqs.OccursAt(Prefix, f, 0)
    ensures Seqs.OccursAt(Slug(datasetType), f, |Prefix|)
    ensures Seqs.OccursAt("_" + IntToString(size), f, |Prefix| + |datasetType|)
    ensures Seqs.OccursAt(Extension, f, |f| - |Extension|)
  {
    var g, s := Slug(datasetType), IntToString(size);
    NameLayout(g, s);
    Prefix + g + "_" + s + Extension
  }

  /** Where the parts of a file name stand. */
  lemma NameLayout(g: string, s: string)
    ensures var f := Prefix + g + "_" + s + Extension;
      && Seqs.OccursAt(Prefix, f, 0)
      && Seqs.OccursAt(g, f, |Prefix|)
      && Seqs.OccursAt("_" + s, f, |Prefix| + |g|)
      && Seqs.OccursAt(Extension, f, |f| - |Extension|)
  {
    // Spelling out the slices keeps the proof small.
    var a1 := Prefix + g;
    var a2 := a1 + "_";
    var a3 := a2 + s;
    var f := a3 + Extension;
    Seqs.SliceLeft(a3, Extension, 0, |Prefix|);
    Seqs.SliceLeft(a2, s, 0, |Prefix|);
    Seqs.SliceLeft(a1, "_", 0, |Prefix|);
    Seqs.SliceLeft(Prefix, g, 0, |Prefix|);
    Seqs.SliceLeft(a3, Extension, |Prefix|, |a1|);
    Seqs.SliceLeft(a2, s, |Prefix|, |a1|);
    Seqs.SliceLeft(a1, "_", |Prefix|, |a1|);
    Seqs.SliceRight(Prefix, g, |Prefix|, |a1|);
    Seqs.SliceLeft(a3, Extension, |a1|, |a3|);
    Seqs.AppendAssoc(a1, "_", s);
    Seqs.SliceRight(a1, "_" + s, |a1|, |a3|);
    Seqs.SliceRight(a3, Extension, |a3|, |f|);
  }

  /** The size can be read back from the file name: for one dataset type,
      two sizes give the same file name exactly when they are equal. */
  lemma SizeDeterminesFilename(datasetType: string, n: int, m: int)
    ensures OutputFilename(datasetType, n) == OutputFilename(datasetType, m) <==> n == m
  {
    if OutputFilename(datasetType, n) == OutputFilename(datasetType, m) {
      var p := Prefix + Slug(datasetType) + "_";
      var s, t := IntToString(n), IntToString(m);
      Seqs.AppendAssoc(p, s, Extension);
      Seqs.AppendAssoc(p, t, Extension);
      Seqs.SliceRight(p, s + Extension, |p|, |p| + |s|);
      Seqs.SliceRight(p, t + Extension, |p|, |p| + |t|);
      Seqs.SliceLeft(s, Extension, 0, |s|);
      Seqs.SliceLeft(t, Extension, 0, |t|);
      IntToStringInjective(n, m);
    }
  }

  /** Right after "synthetic_" comes the first character of the slug, so
      equal file names have slugs with the same first character. */
  lemma SameFilenameSameInitial(a: string, b: string, n: int, m: int)
    requires a != [] && b != []
    requires OutputFilename(a, n) == OutputFilename(b, m)
    ensures Slug(a)[0] == Slug(b)[0]
  {
    assert OutputFilename(a, n)[|Prefix|] == Slug(a)[0];
    assert OutputFilename(b, m)[|Prefix|] == Slug(b)[0];
  }

  /** The lower-case first letter of each offered type's key. */
  function Initial(t: Prompts.DatasetType): char {
    match t
    case CustomerRecords => 'c'
    case FinancialTransactions => 'f'
    case TaxPayerRecords => 't'
    case HealthcarePatients => 'h'
    case EcommerceOrders => 'e'
  }

  /** A slug starts with the lower-cased first character, unless that is a space. */
  lemma SlugHead(s: string)
    requires s != [] && s[0] != ' '
    ensures Slug(s)[0] == LowerChar(s[0])
  {
  }

  /** A type's slug starts with its initial. */
  lemma SlugInitial(t: Prompts.DatasetType)
    ensures Prompts.Name(t) != []
    ensures Slug(Prompts.Name(t))[0] == Initial(t)
  {
    var name := Prompts.Name(t);
    assert name[0] != ' ' && LowerChar(name[0]) == Initial(t);
    SlugHead(name);
  }

  /** The five offered types have five different initials. */
  lemma InitialsDistinct(t: Prompts.DatasetType, u: Prompts.DatasetType)
    ensures Initial(t) == Initial(u) <==> t == u
  {
  }

  /** Two of the five dataset types the interface offers, at any sizes, give
      the same file name exactly when type and size both agree. */
  lemma FilenamesDistinct(t: Prompts.DatasetType, u: Prompts.DatasetType, n: int, m: int)
    ensures OutputFilename(Prompts.Name(t), n) == OutputFilename(Prompts.Name(u), m) <==> t == u && n == m
  {
    var a, b := Prompts.Name(t), Prompts.Name(u);
    if OutputFilename(a, n) == OutputFilename(b, m) {
      SlugInitial(t);
      SlugInitial(u);
      InitialsDistinct(t, u);
      SameFilenameSameInitial(a, b, n, m);
      SizeDeterminesFilename(a, n, m);
    }
  }
}
