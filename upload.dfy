/**
 * The image upload endpoint: who may upload, which form fields it needs, and
 * the storage name it derives from the user id, the upload time and the
 * client's file name.
 */
module Upload {
  import opened Wrappers

  /** The name used when the client sends no usable file name. */
  const DefaultFileName: string := "upload"

  predicate IsDigit(c: char)
  {
    '0' <= c <= '9'
  }

  /** The characters `[a-zA-Z0-9.-]` that the sanitiser keeps. */
  predicate IsAllowed(c: char)
  {
    ('a' <= c <= 'z') || ('A' <= c <= 'Z') || IsDigit(c) || c == '.' || c == '-'
  }

  /** What the sanitiser writes in place of one character. */
  function SanitizedChar(c: char): (d: char)
    ensures IsAllowed(c) ==> d == c
    ensures !IsAllowed(c) ==> d == '_'
  {
    if IsAllowed(c) then c else '_'
  }

  /** A global regular-expression replace of every character outside `[a-zA-Z0-9.-]` by `_`. */
  function ReplaceDisallowed(s: string): (r: string)
    ensures |r| == |s|
    ensures forall i :: 0 <= i < |s| && IsAllowed(s[i]) ==> r[i] == s[i]
    ensures forall i :: 0 <= i < |s| && !IsAllowed(s[i]) ==> r[i] == '_'
  {
    if s == [] then [] else [SanitizedChar(s[0])] + ReplaceDisallowed(s[1..])
  }

  /**
   * The sanitised file name: the replacement applied to the name field, with
   * "upload" standing in when the field is missing or the result is empty.
   */
  function SanitizeFileName(fileName: Option<string>): (r: string)
    ensures fileName == None || fileName == Some([]) ==> r == DefaultFileName
    ensures fileName.Some? && fileName.value != [] ==>
      |r| == |fileName.value| &&
      forall i :: 0 <= i < |r| ==> r[i] == (if IsAllowed(fileName.value[i]) then fileName.value[i] else '_')
    ensures r != []
    ensures forall i :: 0 <= i < |r| ==> IsAllowed(r[i]) || r[i] == '_'
  {
    match fileName
    case None => DefaultFileName
    case Some(name) =>
      var replaced := ReplaceDisallowed(name);
      if replaced == [] then DefaultFileName else replaced
  }

  /** Sanitising an already sanitised name leaves it as it is. */
  lemma SanitizeIdempotent(fileName: Option<string>)
    ensures SanitizeFileName(Some(SanitizeFileName(fileName))) == SanitizeFileName(fileName)
  {
  }

  /** The decimal digit for a value below ten. */
  function DigitChar(d: nat): (c: char)
    requires d < 10
    ensures IsDigit(c) && DigitValue(c) == d
  {
    ('0' as int + d) as char
  }

  /** The decimal rendering of a millisecond timestamp, without leading zeros. */
  function Decimal(n: nat): (s: string)
    ensures 1 <= |s|
    ensures forall i :: 0 <= i < |s| ==> IsDigit(s[i])
    ensures 1 < |s| ==> s[0] != '0'
  {
    if n < 10 then [DigitChar(n)] else Decimal(n / 10) + [DigitChar(n % 10)]
  }

  /** Reads a string of decimal digits back as a number. */
  function ParseDecimal(s: string): nat
    requires forall i :: 0 <= i < |s| ==> IsDigit(s[i])
  {
    if s == [] then 0
    else ParseDecimal(s[..|s| - 1]) * 10 + DigitValue(s[|s| - 1])
  }

  /** The value of one decimal digit. */
  function DigitValue(c: char): (d: nat)
    requires IsDigit(c)
    ensures d < 10
  {
    c as int - '0' as int
  }

  /** The rendering loses nothing: it reads back as the same number. */
  lemma {:induction false} ParseDecimalOfDecimal(n: nat)
    ensures ParseDecimal(Decimal(n)) == n
  {
    var s := Decimal(n);
    if n >= 10 {
      ParseDecimalOfDecimal(n / 10);
      assert s[..|s| - 1] == Decimal(n / 10);
    }
  }

  /** Two timestamps with the same rendering are the same timestamp. */
  lemma DecimalInjective(m: nat, n: nat)
    requires Decimal(m) == Decimal(n)
    ensures m == n
  {
    ParseDecimalOfDecimal(m);
    ParseDecimalOfDecimal(n);
  }

  /** The storage name `userId/timestamp_sanitized`. */
  function UniqueFileName(userId: string, timestamp: nat, sanitized: string): (name: string)
    ensures |name| == |userId| + 1 + |Decimal(timestamp)| + 1 + |sanitized|
    ensures name[..|userId|] == userId && name[|userId|] == '/'
    ensures name[|name| - |sanitized| - 1] == '_' && name[|name| - |sanitized|..] == sanitized
  {
    userId + "/" + Decimal(timestamp) + "_" + sanitized
  }

  /**
   * For one user, the storage name determines the timestamp and the
   * sanitised name it was built from: the digits stop at the first `_`.
   */
  lemma {:induction false} UniqueFileNameDetermines(userId: string, t1: nat, s1: string, t2: nat, s2: string)
    requires UniqueFileName(userId, t1, s1) == UniqueFileName(userId, t2, s2)
    ensures t1 == t2 && s1 == s2
  {
    var d1, d2 := Decimal(t1), Decimal(t2);
    var rest1, rest2 := d1 + "_" + s1, d2 + "_" + s2;
    var name := UniqueFileName(userId, t1, s1);
    var k := |userId| + 1;
    assert name == (userId + "/") + rest1;
    assert name == (userId + "/") + rest2;
    assert rest1 == name[k..] == rest2;
    if |d1| < |d2| {
      assert false;
    } else if |d2| < |d1| {
      assert false;
    }
    assert d1 == rest1[..|d1|] == rest2[..|d2|] == d2;
    assert s1 == rest1[|d1| + 1..] == rest2[|d2| + 1..] == s2;
    DecimalInjective(t1, t2);
  }

  /** A multipart form field: text, or an uploaded file with its bytes. */
  datatype FormValue = Text(text: string) | File(bytes: seq<bv8>)

  /** The two form fields the endpoint reads. */
  datatype Form = Form(file: Option<FormValue>, fileName: Option<FormValue>)

  /** Where the endpoint's decision leads. */
  datatype PostOutcome =
    | Unauthorized
    | NoFile
    | ServerError
    | Store(bytes: seq<bv8>, uniqueFileName: string)

  /** The HTTP status of each early answer; a stored file answers 200 on success. */
  function Status(o: PostOutcome): (code: int)
    ensures o == Unauthorized <==> code == 401
    ensures o == NoFile <==> code == 400
    ensures o == ServerError <==> code == 500
    ensures o.Store? <==> code == 200
  {
    match o
    case Unauthorized => 401
    case NoFile => 400
    case ServerError => 500
    case Store(_, _) => 200
  }

  /** JavaScript truthiness of a form field: absent and empty text are false. */
  predicate Present(v: Option<FormValue>)
  {
    v.Some? && v.value != Text([])
  }

  /**
   * The decision of the upload endpoint.  `userId` is the authenticated user,
   * if any; `timestamp` is the clock reading taken after the checks.  A text
   * field where a file is expected makes a type error, which the endpoint
   * turns into a 500; so does a file where the file name is expected.
   */
  function Post(userId: Option<string>, form: Form, timestamp: nat): (o: PostOutcome)
    ensures o == Unauthorized <==> (userId == None || userId == Some([]))
    ensures o == NoFile <==> (userId.Some? && userId.value != [] && !Present(form.file))
    ensures o.Store? <==>
      && userId.Some? && userId.value != []
      && form.file.Some? && form.file.value.File?
      && (form.fileName.None? || form.fileName.value.Text?)
    ensures o.Store? ==>
      form.file == Some(File(o.bytes)) &&
      userId.value + "/" <= o.uniqueFileName
    ensures o.Store? ==>
      o.uniqueFileName == UniqueFileName(userId.value, timestamp, SanitizeFileName(
        if form.fileName.Some? && form.fileName.value.Text? then Some(form.fileName.value.text) else None))
  {
    match userId
    case None => Unauthorized
    case Some(uid) =>
      if uid == [] then Unauthorized
      else if !Present(form.file) then NoFile
      else match form.file.value
        case Text(_) => ServerError
        case File(bytes) =>
          match form.fileName
          case None => Store(bytes, UniqueFileName(uid, timestamp, SanitizeFileName(None)))
          case Some(Text(name)) => Store(bytes, UniqueFileName(uid, timestamp, SanitizeFileName(Some(name))))
          case Some(File(_)) => ServerError
  }

  /** Without a user the answer is 401 whatever the form holds: the form is not consulted. */
  lemma UnauthorizedIgnoresForm(userId: Option<string>, f1: Form, f2: Form, t1: nat, t2: nat)
    requires userId == None || userId == Some([])
    ensures Post(userId, f1, t1) == Post(userId, f2, t2) == Unauthorized
    ensures Status(Post(userId, f1, t1)) == 401
  {
  }

  /** With a user but no file the answer is 400 and nothing is stored. */
  lemma MissingFileRejected(userId: string, form: Form, t: nat)
    requires userId != [] && !Present(form.file)
    ensures Post(Some(userId), form, t) == NoFile
    ensures !Post(Some(userId), form, t).Store?
  {
  }

  /** The name stored for a request is the unique name of the sanitised file name. */
  lemma StoredNameIsUnique(userId: string, bytes: seq<bv8>, fileName: Option<string>, t: nat)
    requires userId != []
    ensures
      var field := if fileName.Some? then Some(Text(fileName.value)) else None;
      Post(Some(userId), Form(Some(File(bytes)), field), t)
      == Store(bytes, userId + "/" + Decimal(t) + "_" + SanitizeFileName(fileName))
  {
  }
}
