/** The speaker editor (components/speakers/SpeakerForm.js): the `HH:MM`
    strings its time pickers write and read back, the `order` field's
    `parseInt(value) || 0`, and the form state its handlers update. */
module SpeakerForm {
  import opened Common
  import opened Text
  import opened Models

  // ---------------------------------------------------------------------------
  // HH:MM times
  // ---------------------------------------------------------------------------

  predicate IsDigit(c: char)
  {
    '0' <= c <= '9'
  }

  function DigitValue(c: char): nat
    requires IsDigit(c)
  {
    c as int - '0' as int
  }

  /** `str.padStart(width, '0')`. */
  function PadStart(s: string, width: nat): string
  {
    if |s| >= width then s else seq(width - |s|, _ => '0') + s
  }

  /** `String(n).padStart(2, '0')` for an hour or a minute: exactly two digits. */
  function TwoDigits(n: nat): (r: string)
    requires n < 100
    ensures |r| == 2 && IsDigit(r[0]) && IsDigit(r[1])
    ensures DigitValue(r[0]) * 10 + DigitValue(r[1]) == n
  {
    var d := Decimal(n);
    if n < 10 then
      assert d == [('0' as int + n) as char];
      PadStart(d, 2)
    else
      assert d == Decimal(n / 10) + [('0' as int + n % 10) as char];
      assert Decimal(n / 10) == [('0' as int + n / 10) as char];
      PadStart(d, 2)
  }

  /** The string the time pickers store: `${hours}:${minutes}`, both padded to
      two digits. It is a well-formed time whose fields are the picked ones. */
  function FormatTime(h: nat, m: nat): (t: string)
    requires h < 24 && m < 60
    ensures WellFormedTime(t) && Hours(t) == h && MinutesPart(t) == m
  {
    TwoDigits(h) + ":" + TwoDigits(m)
  }

  /** A 24-hour `HH:MM` string with hours 00–23 and minutes 00–59. */
  predicate WellFormedTime(t: string)
  {
    && |t| == 5
    && IsDigit(t[0]) && IsDigit(t[1]) && t[2] == ':' && IsDigit(t[3]) && IsDigit(t[4])
    && DigitValue(t[0]) * 10 + DigitValue(t[1]) < 24
    && DigitValue(t[3]) * 10 + DigitValue(t[4]) < 60
  }

  function Hours(t: string): nat
    requires WellFormedTime(t)
  {
    DigitValue(t[0]) * 10 + DigitValue(t[1])
  }

  function MinutesPart(t: string): nat
    requires WellFormedTime(t)
  {
    DigitValue(t[3]) * 10 + DigitValue(t[4])
  }

  /** Minutes since midnight. */
  function Minutes(t: string): nat
    requires WellFormedTime(t)
  {
    Hours(t) * 60 + MinutesPart(t)
  }

  /** The hours and minutes a stored `HH:MM` string spells, the inverse of
      `FormatTime`; nothing for any other string. */
  function ParseTime(t: string): (r: Option<(nat, nat)>)
    ensures r.Some? <==> WellFormedTime(t)
    ensures r.Some? ==> r.value.0 < 24 && r.value.1 < 60 && r.value.0 * 60 + r.value.1 == Minutes(t)
  {
    if WellFormedTime(t) then Some((Hours(t), MinutesPart(t))) else None
  }

  /** Reading back a formatted time yields the picked hours and minutes. */
  lemma FormatThenParse(h: nat, m: nat)
    requires h < 24 && m < 60
    ensures ParseTime(FormatTime(h, m)) == Some((h, m))
  {
  }

  /** Formatting what was read back from a well-formed time gives the same
      string: the representation is canonical. */
  lemma {:induction false} ParseThenFormat(t: string)
    requires WellFormedTime(t)
    ensures ParseTime(t).Some?
    ensures FormatTime(ParseTime(t).value.0, ParseTime(t).value.1) == t
  {
    var f := FormatTime(Hours(t), MinutesPart(t));
    assert f[0] == t[0] && f[1] == t[1] && f[3] == t[3] && f[4] == t[4];
    assert f == t;
  }

  // ---------------------------------------------------------------------------
  // The picker's Date
  // ---------------------------------------------------------------------------

  /** What a time picker holds: nothing, a time of day, or a `Date` whose
      time is `NaN` (an Invalid Date, which is still truthy). */
  datatype PickerTime = NoTime | ClockTime(hours: nat, minutes: nat) | InvalidDate

  /** The time zone part of an ECMAScript date-time string: none (local
      time), `Z`, or a `±HH:mm` offset in minutes east of UTC. */
  datatype Zone = Local | Utc | Offset(minutes: int)

  /** The time fields of an ECMAScript date-time string after the `T`. */
  datatype TimeFields = TimeFields(hours: nat, minutes: nat, seconds: nat, millis: nat, zone: Zone)

  predicate HasTwoDigits(s: string, i: nat)
  {
    i + 1 < |s| && IsDigit(s[i]) && IsDigit(s[i + 1])
  }

  function TwoDigitValue(s: string, i: nat): (n: nat)
    requires HasTwoDigits(s, i)
    ensures n < 100
  {
    DigitValue(s[i]) * 10 + DigitValue(s[i + 1])
  }

  /** The zone designator ending the string: empty, `Z` or `±HH:mm`. */
  function ReadZone(r: string): (z: Option<Zone>)
    ensures z == Some(Local) <==> r == ""
    ensures z == Some(Utc) <==> r == "Z"
  {
    if r == "" then Some(Local)
    else if r == "Z" then Some(Utc)
    else if && |r| == 6 && (r[0] == '+' || r[0] == '-') && HasTwoDigits(r, 1) && r[3] == ':' && HasTwoDigits(r, 4)
            && TwoDigitValue(r, 1) < 24 && TwoDigitValue(r, 4) < 60
    then
      var east := TwoDigitValue(r, 1) * 60 + TwoDigitValue(r, 4);
      Some(Offset(if r[0] == '+' then east else -east))
    else None
  }

  /** `HH:mm`, then optionally `:ss` and `.sss`, then the zone. */
  function ReadTimeFields(t: string): (r: Option<TimeFields>)
    ensures r.Some? ==> r.value.hours < 100 && r.value.minutes < 100 && r.value.seconds < 100
  {
    if !(HasTwoDigits(t, 0) && |t| >= 5 && t[2] == ':' && HasTwoDigits(t, 3)) then None
    else
      var hh := TwoDigitValue(t, 0);
      var mm := TwoDigitValue(t, 3);
      var rest := t[5..];
      if !(|rest| >= 3 && rest[0] == ':' && HasTwoDigits(rest, 1)) then
        match ReadZone(rest)
        case None => None
        case Some(z) => Some(TimeFields(hh, mm, 0, 0, z))
      else
        var ss := TwoDigitValue(rest, 1);
        var tail := rest[3..];
        if |tail| >= 4 && tail[0] == '.' && IsDigit(tail[1]) && IsDigit(tail[2]) && IsDigit(tail[3]) then
          var ms := DigitValue(tail[1]) * 100 + DigitValue(tail[2]) * 10 + DigitValue(tail[3]);
          match ReadZone(tail[4..])
          case None => None
          case Some(z) => Some(TimeFields(hh, mm, ss, ms, z))
        else
          match ReadZone(tail)
          case None => None
          case Some(z) => Some(TimeFields(hh, mm, ss, 0, z))
  }

  /** Values the date-time format admits: hours up to 24, where `24` is only
      `24:00` (the end of the day), minutes and seconds up to 59. */
  predicate LegalTimeFields(f: TimeFields)
  {
    && f.hours <= 24 && f.minutes < 60 && f.seconds < 60
    && (f.hours == 24 ==> f.minutes == 0 && f.seconds == 0 && f.millis == 0)
  }

  /** `formData.startTime ? new Date(`2000-01-01T${startTime}`) : null`, as the
      picker reads it back with `getHours()` and `getMinutes()`. `zoneOffset`
      is the browser's offset from UTC, in minutes, on that date. */
  function ShownTime(t: string, zoneOffset: int): (r: PickerTime)
    ensures r.NoTime? <==> t == ""
    ensures r.ClockTime? ==> r.hours < 24 && r.minutes < 60
  {
    if t == "" then NoTime
    else match ReadTimeFields(t)
      case None => InvalidDate
      case Some(f) =>
        if !LegalTimeFields(f) then InvalidDate
        else
          var typed := f.hours * 60 + f.minutes;
          var local := match f.zone
            case Local => typed
            case Utc => typed + zoneOffset
            case Offset(east) => typed - east + zoneOffset;
          var day := local % (24 * 60);
          ClockTime(day / 60, day % 60)
  }

  /** Every well-formed `HH:MM` string is shown as the time it spells, in any
      time zone. */
  lemma ShownWellFormed(t: string, zoneOffset: int)
    requires WellFormedTime(t)
    ensures ShownTime(t, zoneOffset) == ClockTime(Hours(t), MinutesPart(t))
    ensures ParseTime(t) == Some((Hours(t), MinutesPart(t)))
  {
    assert t[5..] == "";
    assert ReadTimeFields(t) == Some(TimeFields(Hours(t), MinutesPart(t), 0, 0, Local));
    ClockOfMinutes(Hours(t), MinutesPart(t));
  }

  /** A time of day written as minutes since midnight reads back as itself. */
  lemma ClockOfMinutes(h: nat, m: nat)
    requires h < 24 && m < 60
    ensures var local := h * 60 + m; local % (24 * 60) == local && local / 60 == h && local % 60 == m
  {
  }

  /** The `Date` accepts more than `HH:MM`: the end of the day `24:00` shows
      as midnight and seconds are dropped, while an hour without its leading
      zero, `24:30`, and the text a picker stores for an Invalid Date are
      Invalid Dates. */
  lemma ShownTimeBeyondHHMM(zoneOffset: int)
    ensures ShownTime("24:00", zoneOffset) == ClockTime(0, 0) && !WellFormedTime("24:00")
    ensures ShownTime("09:30:15", zoneOffset) == ClockTime(9, 30) && !WellFormedTime("09:30:15")
    ensures ShownTime("9:30", zoneOffset) == InvalidDate
    ensures ShownTime("24:30", zoneOffset) == InvalidDate
    ensures ShownTime(NaNTime(), zoneOffset) == InvalidDate && !WellFormedTime(NaNTime())
  {
    assert "09:30:15"[5..] == ":15" && ":15"[3..] == "";
    assert "24:00"[5..] == "" && "24:30"[5..] == "";
    assert !IsDigit(NaNTime()[0]);
    assert !IsDigit("9:30"[1]);
  }

  /** `${hours}:${minutes}` for an Invalid Date: `String(NaN)` is `"NaN"`,
      already longer than the padding. */
  function NaNTime(): (t: string)
    ensures t == "NaN:NaN"
  {
    PadStart("NaN", 2) + ":" + PadStart("NaN", 2)
  }

  /** Comparing equal-length strings decides at the first differing position. */
  lemma {:induction false} LexLtAtFirstDifference(a: string, b: string, i: nat)
    requires |a| == |b| && i < |a| && a[..i] == b[..i] && a[i] != b[i]
    ensures LexLt(a, b) <==> a[i] < b[i]
    decreases i
  {
    if i > 0 {
      assert a[0] == b[0] by { assert a[..i][0] == b[..i][0]; }
      assert a[1..][..i - 1] == a[..i][1..];
      assert b[1..][..i - 1] == b[..i][1..];
      LexLtAtFirstDifference(a[1..], b[1..], i - 1);
    }
  }

  lemma {:induction false} LexLtIrreflexive(a: string)
    ensures !LexLt(a, a)
  {
    if a != [] {
      LexLtIrreflexive(a[1..]);
    }
  }

  /** On well-formed times, string order is time order: the comparison the
      server's overlap query makes on `HH:MM` strings is a comparison of
      minutes since midnight. */
  lemma LexOrderIsTimeOrder(a: string, b: string)
    requires WellFormedTime(a) && WellFormedTime(b)
    ensures LexLt(a, b) <==> Minutes(a) < Minutes(b)
    ensures LexLe(a, b) <==> Minutes(a) <= Minutes(b)
  {
    if a[0] != b[0] {
      LexLtAtFirstDifference(a, b, 0);
    } else if a[1] != b[1] {
      LexLtAtFirstDifference(a, b, 1);
    } else if a[3] != b[3] {
      LexLtAtFirstDifference(a, b, 3);
    } else if a[4] != b[4] {
      LexLtAtFirstDifference(a, b, 4);
    } else {
      assert a == b;
      LexLtIrreflexive(a);
    }
  }

  // ---------------------------------------------------------------------------
  // parseInt(value) || 0
  // ---------------------------------------------------------------------------

  /** Whether `c` is a digit in the given radix (10 or 16). */
  predicate IsRadixDigit(c: char, radix: nat)
  {
    if radix == 16 then IsDigit(c) || 'a' <= c <= 'f' || 'A' <= c <= 'F' else IsDigit(c)
  }

  function RadixDigitValue(c: char, radix: nat): nat
    requires IsRadixDigit(c, radix)
  {
    if IsDigit(c) then DigitValue(c)
    else if 'a' <= c <= 'f' then c as int - 'a' as int + 10
    else c as int - 'A' as int + 10
  }

  /** The longest prefix of `s` made of radix digits. */
  function DigitRun(s: string, radix: nat): (r: string)
    ensures |r| <= |s| && r == s[..|r|]
    ensures forall i :: 0 <= i < |r| ==> IsRadixDigit(r[i], radix)
    ensures |r| < |s| ==> !IsRadixDigit(s[|r|], radix)
  {
    if s != [] && IsRadixDigit(s[0], radix) then [s[0]] + DigitRun(s[1..], radix) else []
  }

  /** The value of a string of radix digits, most significant first. */
  function RadixValue(digits: string, radix: nat): nat
    requires forall i :: 0 <= i < |digits| ==> IsRadixDigit(digits[i], radix)
  {
    if digits == [] then 0
    else RadixValue(digits[..|digits| - 1], radix) * radix + RadixDigitValue(digits[|digits| - 1], radix)
  }

  /** The text after one optional leading sign. */
  function Unsigned(s: string): (u: string)
    ensures |u| <= |s|
  {
    if s != [] && (s[0] == '-' || s[0] == '+') then s[1..] else s
  }

  /** `parseInt` on the unsigned part: a `0x`/`0X` prefix switches to radix
      16, then the longest run of digits is read; no digit at all is `NaN`
      (here `None`). */
  function ParseUnsigned(u: string): Option<nat>
  {
    var hex := StartsWith(u, "0x") || StartsWith(u, "0X");
    var body := if hex then u[2..] else u;
    var radix := if hex then 16 else 10;
    var digits := DigitRun(body, radix);
    if digits == [] then None else Some(RadixValue(digits, radix))
  }

  /** `parseInt(value)` without a radix: leading white space is skipped and
      one sign is read before the unsigned part. */
  function ParseInt(value: string): (r: Option<int>)
    ensures TrimStart(value) == [] ==> r.None?
    ensures r.Some? && r.value < 0 ==> TrimStart(value) != [] && TrimStart(value)[0] == '-'
  {
    var s := TrimStart(value);
    match ParseUnsigned(Unsigned(s))
    case None => None
    case Some(n) =>
      var v: int := n;
      Some(if s != [] && s[0] == '-' then -v else v)
  }

  /** `parseInt(value) || 0`: `NaN` (and `-0`) are falsy and become 0. */
  function OrderFromInput(value: string): (n: int)
    ensures ParseInt(value).None? ==> n == 0
    ensures ParseInt(value).Some? ==> n == ParseInt(value).value
  {
    match ParseInt(value)
    case None => 0
    case Some(v) => v
  }

  /** Text that does not start with a digit has no unsigned value. */
  lemma NoDigitNoValue(u: string)
    requires u == [] || !IsDigit(u[0])
    ensures ParseUnsigned(u).None?
  {
    assert !StartsWith(u, "0x") && !StartsWith(u, "0X") by {
      if |u| >= 2 { assert u[..2][0] == u[0]; }
    }
    assert DigitRun(u, 10) == [];
  }

  /** A value whose first non-blank character is neither a sign nor a digit
      is stored as order 0. */
  lemma NoLeadingIntegerGivesZero(value: string)
    requires var s := TrimStart(value); s == [] || !(IsDigit(s[0]) || s[0] == '-' || s[0] == '+')
    ensures OrderFromInput(value) == 0
  {
    var s := TrimStart(value);
    assert Unsigned(s) == s;
    NoDigitNoValue(s);
  }

  /** A plain decimal numeral is read as its value. */
  lemma DecimalInputIsItsValue(n: nat)
    ensures OrderFromInput(Decimal(n)) == n
  {
    var d := Decimal(n);
    assert TrimStart(d) == d by {
      assert !IsSpace(d[0]);
    }
    assert Unsigned(d) == d;
    DecimalUnsignedValue(n);
  }

  lemma DecimalUnsignedValue(n: nat)
    ensures ParseUnsigned(Decimal(n)) == Some(n)
  {
    var d := Decimal(n);
    assert !StartsWith(d, "0x") && !StartsWith(d, "0X") by {
      if |d| >= 2 { assert d[..2][1] == d[1]; }
    }
    DigitRunOfDigits(d);
    RadixValueOfDecimal(n);
  }

  lemma {:induction false} DigitRunOfDigits(d: string)
    requires forall i :: 0 <= i < |d| ==> IsDigit(d[i])
    ensures DigitRun(d, 10) == d
  {
    if d != [] {
      DigitRunOfDigits(d[1..]);
    }
  }

  lemma {:induction false} RadixValueOfDecimal(n: nat)
    ensures RadixValue(Decimal(n), 10) == n
    decreases n
  {
    if n >= 10 {
      var d := Decimal(n);
      assert d[..|d| - 1] == Decimal(n / 10);
      RadixValueOfDecimal(n / 10);
    }
  }

  // ---------------------------------------------------------------------------
  // The form state
  // ---------------------------------------------------------------------------

  /** The inputs of the form; the time pickers write `StartTime`/`EndTime`
      through the same change handler. */
  datatype Field = Name | Designation | ImageUrl | StartTime | EndTime | Order

  datatype FormValue = Text(text: string) | Number(number: int)

  /** `formData`. */
  datatype FormData = FormData(
    name: string, designation: string, imageUrl: string, startTime: string, endTime: string, order: int)

  function Get(d: FormData, f: Field): FormValue
  {
    match f
    case Name => Text(d.name)
    case Designation => Text(d.designation)
    case ImageUrl => Text(d.imageUrl)
    case StartTime => Text(d.startTime)
    case EndTime => Text(d.endTime)
    case Order => Number(d.order)
  }

  /** `{...prev, [name]: name === 'order' ? parseInt(value) || 0 : value}`. */
  function Changed(d: FormData, f: Field, value: string): FormData
  {
    match f
    case Name => d.(name := value)
    case Designation => d.(designation := value)
    case ImageUrl => d.(imageUrl := value)
    case StartTime => d.(startTime := value)
    case EndTime => d.(endTime := value)
    case Order => d.(order := OrderFromInput(value))
  }

  /** A change sets the named field, to the parsed number for `order` and to
      the typed text otherwise, and leaves every other field as it was. */
  lemma ChangeTouchesOnlyItsField(d: FormData, f: Field, value: string)
    ensures Get(Changed(d, f, value), f) == if f == Order then Number(OrderFromInput(value)) else Text(value)
    ensures forall g :: g != f ==> Get(Changed(d, f, value), g) == Get(d, g)
  {
    var r := Changed(d, f, value);
    forall g | g != f
      ensures Get(r, g) == Get(d, g)
    {
      match f
      case Name => assert r == d.(name := value);
      case Designation => assert r == d.(designation := value);
      case ImageUrl => assert r == d.(imageUrl := value);
      case StartTime => assert r == d.(startTime := value);
      case EndTime => assert r == d.(endTime := value);
      case Order => assert r == d.(order := OrderFromInput(value));
    }
  }

  /** The `order` a new speaker starts with: `speakers?.length || 0`. */
  function InitialOrder(speakers: Option<seq<Speaker>>): (n: nat)
    ensures speakers.None? ==> n == 0
    ensures speakers.Some? ==> n == |speakers.value|
  {
    if speakers.Some? then |speakers.value| else 0
  }

  /** What `handleSubmit` passes on: the form fields, and the picked image as
      the data URL the file reader produced (`dataUrl`), if an image was
      picked. The form has no popup image field, so none is sent. */
  function Payload(d: FormData, file: Option<File>, dataUrl: string): (p: SpeakerPayload)
    ensures p.popupImageUrl.None?
    ensures p.file.Some? <==> file.Some?
    ensures p.file.Some? ==> p.file.value.data == dataUrl && p.file.value.mime == file.value.mime
    ensures p.name == Some(d.name) && p.designation == Some(d.designation) && p.order == Some(d.order)
    ensures p.startTime == d.startTime && p.endTime == d.endTime
  {
    SpeakerPayload(
      if file.Some? then Some(FilePayload(dataUrl, file.value.mime, file.value.name)) else None,
      Some(d.name), Some(d.designation), Some(d.imageUrl), None, d.startTime, d.endTime, Some(d.order))
  }

  /** The state of one mounted form. */
  class SpeakerFormState {
    var formData: FormData
    var imageFile: Option<File>
    var imagePreview: string
    var uploading: bool

    constructor ()
      ensures formData == FormData("", "", "", "", "", 0)
      ensures imageFile == None && imagePreview == "" && !uploading
    {
      formData := FormData("", "", "", "", "", 0);
      imageFile := None;
      imagePreview := "";
      uploading := false;
    }

    /** Create mode: only `order` is set, to the number of speakers listed. */
    method LoadForCreate(speakers: Option<seq<Speaker>>)
      modifies this
      ensures formData == old(formData).(order := InitialOrder(speakers))
      ensures imageFile == old(imageFile) && imagePreview == old(imagePreview) && uploading == old(uploading)
    {
      formData := formData.(order := InitialOrder(speakers));
    }

    /** Edit mode: the form shows the speaker's stored fields and image. */
    method LoadForEdit(speaker: Speaker)
      modifies this
      ensures formData == FormData(speaker.name, speaker.designation, speaker.imageUrl,
                                   speaker.startTime, speaker.endTime, speaker.order)
      ensures imagePreview == speaker.imageUrl
      ensures imageFile == old(imageFile) && uploading == old(uploading)
    {
      formData := FormData(speaker.name, speaker.designation, speaker.imageUrl,
                           speaker.startTime, speaker.endTime, speaker.order);
      imagePreview := speaker.imageUrl;
    }

    /** `handleInputChange`: only the named field changes. */
    method InputChange(f: Field, value: string)
      modifies this
      ensures formData == Changed(old(formData), f, value)
      ensures imageFile == old(imageFile) && imagePreview == old(imagePreview) && uploading == old(uploading)
    {
      formData := Changed(formData, f, value);
    }

    /** A time picker's `onChange`: a cleared picker changes nothing; a picked
        time is stored as its `HH:MM` string; an Invalid Date (a partly typed
        time) passes the truthiness test and is stored as `NaN:NaN`. */
    method PickTime(f: Field, picked: PickerTime)
      requires f == StartTime || f == EndTime
      requires picked.ClockTime? ==> picked.hours < 24 && picked.minutes < 60
      modifies this
      ensures picked.NoTime? ==> formData == old(formData)
      ensures picked.ClockTime? ==> formData == Changed(old(formData), f, FormatTime(picked.hours, picked.minutes))
      ensures picked.InvalidDate? ==> formData == Changed(old(formData), f, "NaN:NaN")
      ensures imageFile == old(imageFile) && imagePreview == old(imagePreview) && uploading == old(uploading)
    {
      match picked
      case NoTime =>
      case ClockTime(h, m) =>
        var hours := TwoDigits(h);
        var minutes := TwoDigits(m);
        InputChange(f, hours + ":" + minutes);
      case InvalidDate =>
        InputChange(f, NaNTime());
    }

    /** The value a time picker shows for the stored field. */
    function PickerValue(f: Field, zoneOffset: int): (r: PickerTime)
      requires f == StartTime || f == EndTime
      reads this
      ensures r == ShownTime(if f == StartTime then formData.startTime else formData.endTime, zoneOffset)
    {
      ShownTime(if f == StartTime then formData.startTime else formData.endTime, zoneOffset)
    }

    /** `handleSubmit`: the submitted payload is built from the fields and the
        picked image, and `uploading` is back to false on every path. */
    method Submit(dataUrl: string) returns (payload: SpeakerPayload)
      modifies this
      ensures payload == Payload(formData, imageFile, dataUrl)
      ensures payload.file.Some? <==> imageFile.Some?
      ensures !uploading
      ensures formData == old(formData) && imageFile == old(imageFile) && imagePreview == old(imagePreview)
    {
      uploading := true;
      payload := Payload(formData, imageFile, dataUrl);
      uploading := false;
    }

    /** `handleImageChange`: a file whose type does not start with `image/` is
        refused with an alert and changes nothing; an accepted file is kept for
        upload and previewed through `previewUrl` (the object URL). */
    method ImageChange(file: Option<File>, previewUrl: string) returns (alerted: bool)
      modifies this
      ensures alerted <==> file.Some? && !StartsWith(file.value.mime, "image/")
      ensures alerted || file.None? ==> imageFile == old(imageFile) && imagePreview == old(imagePreview)
      ensures !alerted && file.Some? ==> imageFile == file && imagePreview == previewUrl
      ensures formData == old(formData) && uploading == old(uploading)
    {
      alerted := false;
      if file.Some? {
        if !StartsWith(file.value.mime, "image/") {
          alerted := true;
          return;
        }
        imageFile := file;
        imagePreview := previewUrl;
      }
    }
  }

  /** After picking a time, the picker shows exactly the picked time again,
      in any time zone; after an Invalid Date it shows an Invalid Date. */
  lemma PickedTimeIsShownBack(d: FormData, h: nat, m: nat, zoneOffset: int)
    requires h < 24 && m < 60
    ensures Changed(d, StartTime, FormatTime(h, m)).startTime == FormatTime(h, m)
    ensures ShownTime(Changed(d, StartTime, FormatTime(h, m)).startTime, zoneOffset) == ClockTime(h, m)
    ensures ShownTime(Changed(d, StartTime, NaNTime()).startTime, zoneOffset) == InvalidDate
  {
    ShownWellFormed(FormatTime(h, m), zoneOffset);
    ShownTimeBeyondHHMM(zoneOffset);
  }
}
