/** The card options of `Classic`. The caller's object is a map from field
    to value; `{ ...defaults, ...option }` is map union. The merged object is
    then read as a `Settings` record, and the clamping and truncation
    overwrite four of its fields. */
module CardOptions {
  import opened Wrappers

  /** The fields of the options object. */
  datatype Field =
    | Progress | Name | Author | StartTime | EndTime
    | ProgressBarColor | ProgressColor | BackgroundColor
    | NameColor | AuthorColor | TimeColor
    | ImageDarkness | ThumbnailImage | BackgroundImage

  /** A JavaScript value as it can appear in the options object. */
  datatype Value =
    | Number(n: real)
    | Text(s: string)          // a string; each char stands for one UTF-16 code unit
    | Bytes(b: seq<bv8>)       // a Buffer holding image data
    | Undefined

  /** JavaScript truthiness (NaN is not modelled). */
  predicate Truthy(v: Value)
  {
    match v
    case Number(n) => n != 0.0
    case Text(s) => s != ""
    case Bytes(_) => true
    case Undefined => false
  }

  /** The falsy values are exactly undefined, 0 and the empty string; every
      Buffer is truthy. */
  lemma FalsyValues(v: Value)
    ensures !Truthy(v) <==> v == Undefined || v == Number(0.0) || v == Text("")
  {
  }

  const MinProgress: real := 10.0
  const MaxProgress: real := 100.0
  const MinDarkness: real := 0.0
  const MaxDarkness: real := 100.0
  /** Labels longer than this many code units are cut and get an ellipsis. */
  const LabelLimit: nat := 18
  const Ellipsis: string := "..."

  /** The default of each field (lines 48-61); the two images have none. */
  function DefaultOf(k: Field): Option<Value>
  {
    match k
    case Progress => Some(Number(10.0))
    case Name => Some(Text("Musicard"))
    case Author => Some(Text("By Unburn"))
    case StartTime => Some(Text("0:00"))
    case EndTime => Some(Text("0:00"))
    case ProgressBarColor => Some(Text("#5F2D00"))
    case ProgressColor => Some(Text("#FF7A00"))
    case BackgroundColor => Some(Text("#070707"))
    case NameColor => Some(Text("#FF7A00"))
    case AuthorColor => Some(Text("#FFFFFF"))
    case TimeColor => Some(Text("#FFFFFF"))
    case ImageDarkness => Some(Number(10.0))
    case ThumbnailImage => None
    case BackgroundImage => None
  }

  const AllFields: set<Field> := {Progress, Name, Author, StartTime, EndTime,
                                  ProgressBarColor, ProgressColor, BackgroundColor,
                                  NameColor, AuthorColor, TimeColor, ImageDarkness,
                                  ThumbnailImage, BackgroundImage}

  /** The default options object. */
  const Defaults: map<Field, Value> := map k | k in AllFields && DefaultOf(k).Some? :: DefaultOf(k).value

  /** The default object has the twelve defaulted fields, each with its
      default: 10 for the two numbers and a non-empty string for the others. */
  lemma DefaultsRecord()
    ensures Defaults.Keys == AllFields - {ThumbnailImage, BackgroundImage}
    ensures forall k | k in Defaults :: Some(Defaults[k]) == DefaultOf(k)
    ensures Defaults[Progress] == Number(10.0) && Defaults[ImageDarkness] == Number(10.0)
    ensures forall k | k in Defaults && k != Progress && k != ImageDarkness ::
              Defaults[k].Text? && Defaults[k].s != ""
  {
    forall k | k in AllFields - {ThumbnailImage, BackgroundImage}
      ensures k in Defaults
    {
      assert DefaultOf(k).Some?;
    }
  }

  /** A caller's object: each defaulted field it gives has the default's
      type. The image fields may hold anything. */
  predicate CallerTyped(c: map<Field, Value>)
  {
    && (Progress in c ==> c[Progress].Number?) && (ImageDarkness in c ==> c[ImageDarkness].Number?)
    && (Name in c ==> c[Name].Text?) && (Author in c ==> c[Author].Text?)
    && (StartTime in c ==> c[StartTime].Text?) && (EndTime in c ==> c[EndTime].Text?)
    && (ProgressBarColor in c ==> c[ProgressBarColor].Text?)
    && (ProgressColor in c ==> c[ProgressColor].Text?)
    && (BackgroundColor in c ==> c[BackgroundColor].Text?)
    && (NameColor in c ==> c[NameColor].Text?)
    && (AuthorColor in c ==> c[AuthorColor].Text?)
    && (TimeColor in c ==> c[TimeColor].Text?)
  }

  /** `{ ...base, ...over }`: every field of `over`, and the fields of `base`
      that `over` does not give. */
  function Merge(base: map<Field, Value>, over: map<Field, Value>): (r: map<Field, Value>)
    ensures r.Keys == base.Keys + over.Keys
    ensures forall k :: k in over ==> r[k] == over[k]
    ensures forall k :: k in base && k !in over ==> r[k] == base[k]
  {
    base + over
  }

  function Lookup(o: map<Field, Value>, k: Field): Option<Value>
  {
    if k in o then Some(o[k]) else None
  }

  /** A field of the merged object: the caller's when given, else the default. */
  function Get(caller: map<Field, Value>, k: Field): Option<Value>
  {
    if k in caller then Some(caller[k]) else DefaultOf(k)
  }

  /** `Get` reads the object that the spread of line 63 builds. */
  lemma SpreadAgrees(caller: map<Field, Value>, k: Field)
    ensures Lookup(Merge(Defaults, caller), k) == Get(caller, k)
  {
    assert k in AllFields;
  }

  /** The merged options, field by field. */
  datatype Settings = Settings(
    progress: real,
    name: string,
    author: string,
    startTime: string,
    endTime: string,
    progressBarColor: string,
    progressColor: string,
    backgroundColor: string,
    nameColor: string,
    authorColor: string,
    timeColor: string,
    imageDarkness: real,
    thumbnailImage: Option<Value>,     // None when the field is absent
    backgroundImage: Option<Value>)

  /** The number or string a field holds; `CallerTyped` rules out the other case. */
  function AsNumber(v: Option<Value>): real
  {
    if v.Some? && v.value.Number? then v.value.n else 0.0
  }

  function AsText(v: Option<Value>): string
  {
    if v.Some? && v.value.Text? then v.value.s else ""
  }

  /** Line 63: the caller's options merged over the defaults, as a record. */
  function Merged(caller: map<Field, Value>): Settings
    requires CallerTyped(caller)
  {
    Settings(AsNumber(Get(caller, Progress)), AsText(Get(caller, Name)), AsText(Get(caller, Author)),
             AsText(Get(caller, StartTime)), AsText(Get(caller, EndTime)),
             AsText(Get(caller, ProgressBarColor)), AsText(Get(caller, ProgressColor)),
             AsText(Get(caller, BackgroundColor)), AsText(Get(caller, NameColor)),
             AsText(Get(caller, AuthorColor)), AsText(Get(caller, TimeColor)),
             AsNumber(Get(caller, ImageDarkness)),
             Get(caller, ThumbnailImage), Get(caller, BackgroundImage))
  }

  /** A field of the record, read back as a value of the options object. */
  function FieldOf(m: Settings, k: Field): Option<Value>
  {
    match k
    case Progress => Some(Number(m.progress))
    case Name => Some(Text(m.name))
    case Author => Some(Text(m.author))
    case StartTime => Some(Text(m.startTime))
    case EndTime => Some(Text(m.endTime))
    case ProgressBarColor => Some(Text(m.progressBarColor))
    case ProgressColor => Some(Text(m.progressColor))
    case BackgroundColor => Some(Text(m.backgroundColor))
    case NameColor => Some(Text(m.nameColor))
    case AuthorColor => Some(Text(m.authorColor))
    case TimeColor => Some(Text(m.timeColor))
    case ImageDarkness => Some(Number(m.imageDarkness))
    case ThumbnailImage => m.thumbnailImage
    case BackgroundImage => m.backgroundImage
  }

  lemma MergedField(caller: map<Field, Value>, k: Field)
    requires CallerTyped(caller)
    ensures FieldOf(Merged(caller), k) == Get(caller, k)
  {
  }

  /** The record holds exactly what the spread object of line 63 holds:
      every field of `Merged` reads the same field of `{ ...Defaults, ...caller }`. */
  lemma MergedFromSpread(caller: map<Field, Value>)
    requires CallerTyped(caller)
    ensures forall k :: FieldOf(Merged(caller), k) == Lookup(Merge(Defaults, caller), k)
  {
    forall k ensures FieldOf(Merged(caller), k) == Lookup(Merge(Defaults, caller), k) {
      SpreadAgrees(caller, k);
      MergedField(caller, k);
    }
  }

  /** The merged numbers: the caller's when given, else 10. */
  lemma MergedNumbers(caller: map<Field, Value>)
    requires CallerTyped(caller)
    ensures Merged(caller).progress == if Progress in caller then caller[Progress].n else 10.0
    ensures Merged(caller).imageDarkness == if ImageDarkness in caller then caller[ImageDarkness].n else 10.0
  {
  }

  /** The merged name and author: the caller's when given, else the defaults. */
  lemma MergedLabels(caller: map<Field, Value>)
    requires CallerTyped(caller)
    ensures Merged(caller).name == if Name in caller then caller[Name].s else "Musicard"
    ensures Merged(caller).author == if Author in caller then caller[Author].s else "By Unburn"
  {
  }

  /** The merged times: the caller's when given, else "0:00". */
  lemma MergedTimes(caller: map<Field, Value>)
    requires CallerTyped(caller)
    ensures Merged(caller).startTime == if StartTime in caller then caller[StartTime].s else "0:00"
    ensures Merged(caller).endTime == if EndTime in caller then caller[EndTime].s else "0:00"
  {
  }

  /** The merged bar and background colours: the caller's when given, else the defaults. */
  lemma MergedColors(caller: map<Field, Value>)
    requires CallerTyped(caller)
    ensures Merged(caller).progressBarColor == if ProgressBarColor in caller then caller[ProgressBarColor].s else "#5F2D00"
    ensures Merged(caller).progressColor == if ProgressColor in caller then caller[ProgressColor].s else "#FF7A00"
    ensures Merged(caller).backgroundColor == if BackgroundColor in caller then caller[BackgroundColor].s else "#070707"
  {
  }

  /** The merged text colours: the caller's when given, else the defaults. */
  lemma MergedTextColors(caller: map<Field, Value>)
    requires CallerTyped(caller)
    ensures Merged(caller).nameColor == if NameColor in caller then caller[NameColor].s else "#FF7A00"
    ensures Merged(caller).authorColor == if AuthorColor in caller then caller[AuthorColor].s else "#FFFFFF"
    ensures Merged(caller).timeColor == if TimeColor in caller then caller[TimeColor].s else "#FFFFFF"
  {
  }

  /** The image fields have no default: they are exactly what the caller gave. */
  lemma MergedImages(caller: map<Field, Value>)
    requires CallerTyped(caller)
    ensures Merged(caller).thumbnailImage == Lookup(caller, ThumbnailImage)
    ensures Merged(caller).backgroundImage == Lookup(caller, BackgroundImage)
  {
  }

  /** An empty options object gives the defaults. */
  lemma MergedDefaults()
    ensures Merged(map[]) == Settings(10.0, "Musicard", "By Unburn", "0:00", "0:00",
                                     "#5F2D00", "#FF7A00", "#070707", "#FF7A00",
                                     "#FFFFFF", "#FFFFFF", 10.0, None, None)
  {
  }

  /** `Math.min` and `Math.max`. */
  function Min(a: real, b: real): real { if a <= b then a else b }
  function Max(a: real, b: real): real { if a >= b then a else b }

  /** `Math.max(lo, Math.min(x, hi))`: the point of [lo, hi] nearest to x. */
  function Clamp(lo: real, hi: real, x: real): (r: real)
    requires lo <= hi
    ensures lo <= r <= hi
    ensures lo <= x <= hi ==> r == x
    ensures x < lo ==> r == lo
    ensures hi < x ==> r == hi
  {
    Max(lo, Min(x, hi))
  }

  /** A label longer than the limit is cut to its first 18 code units
      followed by "..."; a shorter one is kept. */
  function Ellipsize(s: string): (r: string)
    ensures |s| <= LabelLimit ==> r == s
    ensures |s| > LabelLimit ==> |r| == LabelLimit + |Ellipsis|
    ensures |s| > LabelLimit ==> r[..LabelLimit] == s[..LabelLimit] && r[LabelLimit..] == Ellipsis
  {
    if |s| > LabelLimit then s[..LabelLimit] + Ellipsis else s
  }

  /** Cutting a label a second time changes nothing, and a cut label has
      at most 21 code units. */
  lemma EllipsizeIdempotent(s: string)
    ensures Ellipsize(Ellipsize(s)) == Ellipsize(s)
    ensures |Ellipsize(s)| <= LabelLimit + |Ellipsis|
  {
    var r := Ellipsize(s);
    if |s| > LabelLimit {
      assert r == r[..LabelLimit] + r[LabelLimit..];
    }
  }

  /** Lines 75-78: clamp the two numbers and cut the two labels; no other
      field changes. */
  function Normalise(s: Settings): (r: Settings)
    ensures MinProgress <= r.progress <= MaxProgress
    ensures MinDarkness <= r.imageDarkness <= MaxDarkness
    ensures |r.name| <= LabelLimit + |Ellipsis| && |r.author| <= LabelLimit + |Ellipsis|
    ensures r.(progress := s.progress, imageDarkness := s.imageDarkness,
               name := s.name, author := s.author) == s
  {
    s.(progress := Clamp(MinProgress, MaxProgress, s.progress))
     .(imageDarkness := Clamp(MinDarkness, MaxDarkness, s.imageDarkness))
     .(name := Ellipsize(s.name))
     .(author := Ellipsize(s.author))
  }

  /** Normalising normalised options changes nothing. */
  lemma NormaliseIdempotent(s: Settings)
    ensures Normalise(Normalise(s)) == Normalise(s)
  {
    EllipsizeIdempotent(s.name);
    EllipsizeIdempotent(s.author);
  }

  /** The overlay's `fill-opacity`: the darkness as a fraction. */
  function Opacity(darkness: real): (r: real)
    ensures MinDarkness <= darkness <= MaxDarkness ==> 0.0 <= r <= 1.0
    ensures darkness == MinDarkness ==> r == 0.0
    ensures darkness == MaxDarkness ==> r == 1.0
  {
    darkness / 100.0
  }
}
