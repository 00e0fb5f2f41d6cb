/** Source files of a project, classified by extension and kept in one set
    per file type (`SourceFileType`, `SourceFileCollection`). */
module SourceFiles {
  import opened Wrappers
  import opened Paths

  datatype FileType = Code | Resource | ModuleDefinition | Unknown

  /** `SourceFileType::from`: C and C++ sources are code, ".rc" scripts are
      resources, ".def" files are module definitions, and everything else
      (no extension, headers, upper-case variants) is unknown. */
  function Classify(p: Path): (t: FileType)
    ensures t == Code <==> Extension(p) in {Some("cpp"), Some("c"), Some("cxx")}
    ensures t == Resource <==> Extension(p) == Some("rc")
    ensures t == ModuleDefinition <==> Extension(p) == Some("def")
    ensures t == Unknown <==> Extension(p) !in {Some("cpp"), Some("c"), Some("cxx"), Some("rc"), Some("def")}
  {
    match Extension(p)
    case None => Unknown
    case Some(ext) =>
      if ext == "cpp" || ext == "c" || ext == "cxx" then Code
      else if ext == "rc" then Resource
      else if ext == "def" then ModuleDefinition
      else Unknown
  }

  /** Classification looks at nothing but the extension. */
  lemma ClassifyByExtension(p: Path, q: Path)
    requires Extension(p) == Extension(q)
    ensures Classify(p) == Classify(q)
  {
  }

  /** The classification of a file named `stem.ext` under any directory. */
  lemma ClassifyName(dirs: seq<string>, absolute: bool, stem: string, ext: string)
    requires stem != [] && stem + "." + ext != ParentDir
    requires forall j :: 0 <= j < |ext| ==> ext[j] != '.'
    ensures var t := Classify(Path(absolute, dirs + [stem + "." + ext]));
            && (ext in {"cpp", "c", "cxx"} ==> t == Code)
            && (ext == "rc" ==> t == Resource)
            && (ext == "def" ==> t == ModuleDefinition)
            && (ext in {"h", "hpp", "CPP", "RC", ""} ==> t == Unknown)
  {
    ExtensionOfName(dirs, absolute, stem, ext);
  }

  /** The per-type store. A `Default` collection has no buckets at all;
      `New` creates an empty bucket for every type. */
  datatype Collection = Collection(files: map<FileType, set<Path>>)

  const AllTypes: set<FileType> := {Code, Resource, ModuleDefinition, Unknown}

  lemma EveryTypeListed()
    ensures forall t :: t in AllTypes
  {
    forall t: FileType
      ensures t in AllTypes
    {
      match t
      case Code =>
      case Resource =>
      case ModuleDefinition =>
      case Unknown =>
    }
  }

  function Default(): Collection {
    Collection(map[])
  }

  /** `SourceFileCollection::new`. */
  function New(): (c: Collection)
    ensures c.files.Keys == AllTypes
    ensures forall t :: t in c.files ==> c.files[t] == {}
  {
    Collection(map[Code := {}, Resource := {}, ModuleDefinition := {}, Unknown := {}])
  }

  /** The paths held for a type; a missing bucket holds nothing. */
  function Bucket(c: Collection, t: FileType): set<Path> {
    if t in c.files then c.files[t] else {}
  }

  /** `SourceFileCollection::insert`: the path goes into the bucket of its
      own type, creating the bucket if needed; no other bucket changes. */
  function Insert(c: Collection, p: Path): (r: Collection)
    ensures Classify(p) in r.files
    ensures Bucket(r, Classify(p)) == Bucket(c, Classify(p)) + {p}
    ensures forall t :: t != Classify(p) ==>
              (t in r.files <==> t in c.files) && Bucket(r, t) == Bucket(c, t)
  {
    var t := Classify(p);
    if t in c.files then Collection(c.files[t := c.files[t] + {p}])
    else Collection(c.files[t := {p}])
  }

  /** Inserting a path that is already there changes nothing. */
  lemma InsertIdempotent(c: Collection, p: Path)
    requires p in Bucket(c, Classify(p))
    ensures Insert(c, p) == c
  {
    var t := Classify(p);
    assert c.files[t] + {p} == c.files[t];
    assert c.files[t := c.files[t]] == c.files;
  }

  /** Insertion commutes: the collection is a set store, so the order in
      which files are added does not matter. */
  lemma InsertCommutes(c: Collection, p: Path, q: Path)
    ensures Insert(Insert(c, p), q) == Insert(Insert(c, q), p)
  {
    var a := Insert(Insert(c, p), q);
    var b := Insert(Insert(c, q), p);
    assert a.files.Keys == b.files.Keys;
    forall t | t in a.files
      ensures a.files[t] == b.files[t]
    {
      assert Bucket(a, t) == Bucket(b, t);
    }
  }

  /** `SourceFileCollection::get`: every path of the bucket exactly once,
      in the (unspecified) iteration order of the set; nothing for a type
      without a bucket. */
  method Get(c: Collection, t: FileType) returns (r: seq<Path>)
    ensures forall i, j :: 0 <= i < j < |r| ==> r[i] != r[j]
    ensures forall p :: p in r <==> p in Bucket(c, t)
    ensures t !in c.files ==> r == []
  {
    var rest := Bucket(c, t);
    r := [];
    while rest != {}
      invariant forall i, j :: 0 <= i < j < |r| ==> r[i] != r[j]
      invariant forall p :: p in r ==> p !in rest
      invariant forall p :: p in Bucket(c, t) <==> p in r || p in rest
      invariant Bucket(c, t) == {} ==> r == []
      decreases |rest|
    {
      var p :| p in rest;
      r := r + [p];
      rest := rest - {p};
    }
  }
}
