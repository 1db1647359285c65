/**
 * The scam report form (`incepta/app/report/page.tsx`): its form state, the
 * image validator, the single-field update, and the submission controller.
 *
 * Submission talks to outside services (the browser's geolocation, object
 * storage, the summariser, the `scams` table). Their answers arrive as an
 * `Env` value; what the controller asks of them, and what it shows the user,
 * is recorded as a sequence of `Effect`s.
 */
module ReportPage {
  import opened Wrappers
  import opened Strings

  // ---------------------------------------------------------------- form state

  /** The browser `File` the user picked: its name, its size in bytes and its MIME type. */
  datatype File = File(name: string, size: nat, contentType: string)

  /** `FeedbackForm`: the text fields and the optional image. */
  datatype Form = Form(title: string, description: string, image: Option<File>, scamType: string)

  /** The `name` attributes of the inputs wired to `handleChange`. */
  datatype Field = Title | Description | ScamType

  const INITIAL_FORM := Form("", "", None, "phishing")

  function GetField(form: Form, name: Field): string {
    match name
    case Title => form.title
    case Description => form.description
    case ScamType => form.scamType
  }

  /** `{ ...prev, [name]: value }`: the named field takes the value, nothing else changes. */
  function SetField(form: Form, name: Field, value: string): (r: Form)
    ensures GetField(r, name) == value
    ensures forall other :: other != name ==> GetField(r, other) == GetField(form, other)
    ensures r.image == form.image
  {
    match name
    case Title => form.(title := value)
    case Description => form.(description := value)
    case ScamType => form.(scamType := value)
  }

  /** `!title || !description || !scamType`: the empty string is the only falsy string. */
  predicate MissingField(form: Form) {
    form.title == "" || form.description == "" || form.scamType == ""
  }

  // ----------------------------------------------------------- image validator

  const MAX_IMAGE_BYTES: nat := 5 * 1024 * 1024
  const IMAGE_TYPE_PREFIX := "image/"
  const TOO_LARGE_MESSAGE := "File size must be less than 5MB"
  const NOT_IMAGE_MESSAGE := "Only image files are allowed"

  datatype ImageVerdict = Accepted | TooLarge | NotAnImage

  /** The two checks of `handleImageChange`, size first, then type. */
  function CheckImage(file: File): (v: ImageVerdict)
    ensures v == Accepted <==> file.size <= MAX_IMAGE_BYTES && IsPrefix(IMAGE_TYPE_PREFIX, file.contentType)
    ensures v == TooLarge <==> file.size > MAX_IMAGE_BYTES
    ensures v == NotAnImage <==> file.size <= MAX_IMAGE_BYTES && !IsPrefix(IMAGE_TYPE_PREFIX, file.contentType)
  {
    if file.size > MAX_IMAGE_BYTES then TooLarge
    else if !IsPrefix(IMAGE_TYPE_PREFIX, file.contentType) then NotAnImage
    else Accepted
  }

  /** A file of exactly 5 MiB passes the size check; one byte more does not, whatever its type. */
  lemma SizeCeilingIsInclusive(name: string, contentType: string)
    ensures CheckImage(File(name, 5 * 1024 * 1024, contentType)) != TooLarge
    ensures CheckImage(File(name, 5 * 1024 * 1024 + 1, contentType)) == TooLarge
    ensures CheckImage(File(name, 5 * 1024 * 1024, "image/png")) == Accepted
  {
  }

  // --------------------------------------------------------------- upload path

  const BUCKET := "scam-images"
  const UPLOAD_DIR := "scam-images/"

  /** `image.name.split(".").pop()` */
  function FileExt(name: string): (ext: string)
    ensures '.' !in ext
  {
    Last(Split(name, '.'))
  }

  /** The extension is the text after the last dot of the name, or the whole name when it has no dot. */
  lemma FileExtIsAfterLastDot(name: string)
    ensures '.' !in FileExt(name)
    ensures '.' !in name ==> FileExt(name) == name
    ensures '.' in name ==>
      var k := |name| - |FileExt(name)| - 1;
      0 <= k && name[k] == '.' && name[k + 1..] == FileExt(name)
  {
    SplitLast(name, '.');
  }

  /** `scam-images/${Date.now()}.${fileExt}` */
  function UploadPath(now: nat, name: string): (path: string)
    ensures IsPrefix(UPLOAD_DIR, path)
  {
    UPLOAD_DIR + DecimalString(now) + "." + FileExt(name)
  }

  /** Reads a storage path back into the timestamp and the extension it was built from. */
  function ParseUploadPath(path: string): Option<(nat, string)> {
    if !IsPrefix(UPLOAD_DIR, path) then None
    else
      var parts := Split(path[|UPLOAD_DIR|..], '.');
      if |parts| == 2 && |parts[0]| >= 1 && IsDigits(parts[0])
      then Some((DecimalValue(parts[0]), parts[1]))
      else None
  }

  /** An upload path records exactly its timestamp and the file's extension. */
  lemma UploadPathRoundTrip(now: nat, name: string)
    ensures ParseUploadPath(UploadPath(now, name)) == Some((now, FileExt(name)))
  {
    var digits, ext := DecimalString(now), FileExt(name);
    var path := UploadPath(now, name);
    assert IsPrefix(UPLOAD_DIR, path);
    assert path[|UPLOAD_DIR|..] == digits + ['.'] + ext;
    assert '.' !in digits by {
      forall i | 0 <= i < |digits| ensures digits[i] != '.' { assert IsDigit(digits[i]); }
    }
    FileExtIsAfterLastDot(name);
    SplitAfterHead(digits, '.', ext);
    SplitWithoutSeparator(ext, '.');
    DecimalRoundTrip(now);
  }

  /** Upload paths taken at different times never collide, whatever the file names. */
  lemma UploadPathsDistinct(now1: nat, name1: string, now2: nat, name2: string)
    requires UploadPath(now1, name1) == UploadPath(now2, name2)
    ensures now1 == now2 && FileExt(name1) == FileExt(name2)
  {
    UploadPathRoundTrip(now1, name1);
    UploadPathRoundTrip(now2, name2);
  }

  // ----------------------------------------------------------------- submission

  /** A position reported by `navigator.geolocation`. */
  datatype Coord = Coord(lat: real, lng: real)

  /** The row inserted into the `scams` table. The insert sets no `user_id` and no vote count. */
  datatype Record = Record(
    title: string, description: string, scamType: string,
    lat: real, lng: real, imageUrl: Option<string>,
    aiSummary: string, timestamp: string)

  /** What the controller does outside its own state, in the order it does it. */
  datatype Effect =
    | Alert(message: string)
    | RequestLocation
    | Upload(bucket: string, path: string, file: File, contentType: string, cacheControl: string, upsert: bool)
    | Summarize(prompt: string)
    | Insert(table: string, row: Record)
    | Navigate(href: string)
  {
    /** The position of a service call in the submission sequence; alerts have none. */
    function Stage(): nat
      requires !Alert?
    {
      match this
      case RequestLocation => 0
      case Upload(_, _, _, _, _, _) => 1
      case Summarize(_) => 2
      case Insert(_, _) => 3
      case Navigate(_) => 4
    }
  }

  /**
   * How `getCurrentPosition` answers: with a position, through its error callback,
   * or not at all (no `timeout` option is passed, so neither callback need ever run).
   */
  datatype LocationReply = Located(coord: Coord) | LocationFailed | LocationPending

  /**
   * How the awaited `summarize` call settles: with the model's text, with the
   * fallback its own `catch` returns when the model call throws, or rejected on
   * the client side (the server action itself unreachable), which nothing catches.
   */
  datatype SummaryReply = Summary(text: string) | SummaryFailed | SummaryRejected

  /**
   * The outside world during one submission: the geolocation answer, `Date.now()`,
   * whether the storage upload succeeds, what `getPublicUrl` returns for a path,
   * the summariser's reply, `new Date().toISOString()`, and whether the insert succeeds.
   */
  datatype Env = Env(
    position: LocationReply, now: nat, uploadOk: bool, publicUrl: string -> string,
    summary: SummaryReply, isoTime: string, insertOk: bool)

  const SCAMS_TABLE := "scams"
  const CACHE_CONTROL := "3600"
  const HOME_HREF := "/"
  const MISSING_FIELDS_MESSAGE := "Please fill in all required fields."
  const UPLOAD_FAILED_MESSAGE := "Failed to upload image"
  const INSERT_FAILED_MESSAGE := "Failed to submit scam report"
  const SUBMITTED_MESSAGE := "Scam report submitted!"
  const LOCATION_MESSAGE := "Could not get your location. Please allow location access."
  const SUMMARY_FALLBACK := "An error occurred while summarizing."
  const SUMMARY_INSTRUCTION := "You are a summarizer. I just want to have the summary in a 3-4 sentences. Please summarize the following text: "

  /** What a settled `summarize` resolves to: the model's text, or the fixed fallback when the model call throws. */
  function SummaryText(reply: SummaryReply): (text: string)
    requires !reply.SummaryRejected?
    ensures reply.SummaryFailed? ==> text == SUMMARY_FALLBACK
    ensures reply.Summary? ==> text == reply.text
  {
    match reply
    case Summary(t) => t
    case SummaryFailed => SUMMARY_FALLBACK
  }

  /** The prompt sent to the summariser: the fixed instruction followed by the description. */
  function SummaryPrompt(description: string): (prompt: string)
    ensures IsPrefix(SUMMARY_INSTRUCTION, prompt) && prompt[|SUMMARY_INSTRUCTION|..] == description
  {
    SUMMARY_INSTRUCTION + description
  }

  /** The upload request for an attached image. */
  function UploadOf(file: File, now: nat): Effect {
    Upload(BUCKET, UploadPath(now, file.name), file, file.contentType, CACHE_CONTROL, false)
  }

  /** The upload a submit performs: one for an attached image, none otherwise. */
  function Uploads(form: Form, env: Env): seq<Effect> {
    if form.image.Some? then [UploadOf(form.image.value, env.now)] else []
  }

  /** The public URL of the uploaded image, or null when none was attached. */
  function ImageUrl(form: Form, env: Env): (url: Option<string>)
    ensures url.None? <==> form.image.None?
  {
    match form.image
    case None => None
    case Some(file) => Some(env.publicUrl(UploadPath(env.now, file.name)))
  }

  function RecordOf(form: Form, pos: Coord, env: Env): Record
    requires !env.summary.SummaryRejected?
  {
    Record(form.title, form.description, form.scamType, pos.lat, pos.lng,
           ImageUrl(form, env), SummaryText(env.summary), env.isoTime)
  }

  /** The outside world gets the submission as far as the insert: located, any image uploaded, a summary text. */
  predicate ReachesInsert(form: Form, env: Env) {
    env.position.Located? && (form.image.None? || env.uploadOk) && !env.summary.SummaryRejected?
  }

  /** The outside world lets the whole submission through once the fields are filled in. */
  predicate Succeeds(form: Form, env: Env) {
    ReachesInsert(form, env) && env.insertOk
  }

  /**
   * A call never settles: the location request is never answered, or the
   * `summarize` promise rejects and the callback throws before any insert or alert.
   */
  predicate Unsettled(form: Form, env: Env) {
    || env.position.LocationPending?
    || (env.position.Located? && (form.image.None? || env.uploadOk) && env.summary.SummaryRejected?)
  }

  /** The flag the page holds after a submit, and the effects the submit performed. */
  datatype Outcome = Outcome(submitting: bool, effects: seq<Effect>)

  /** Service calls appear in submission order: locate, upload, summarise, insert, navigate. */
  predicate InStageOrder(es: seq<Effect>) {
    forall i, j :: 0 <= i < j < |es| && !es[i].Alert? && !es[j].Alert? ==> es[i].Stage() < es[j].Stage()
  }

  /** Nothing written: no upload, no insert, no navigation. */
  predicate NoWrites(es: seq<Effect>) {
    forall e :: e in es ==> !e.Upload? && !e.Insert? && !e.Navigate?
  }

  /**
   * The success callback handed to `getCurrentPosition`, run with the position:
   * upload any image, ask for a summary, insert the row, go home. Its flag says
   * whether it leaves `submitting` as it found it (true) or clears it (false);
   * its effects are those after the location request.
   */
  function OnLocated(form: Form, pos: Coord, env: Env): (r: Outcome)
    ensures r.submitting <==> (form.image.None? || env.uploadOk) && (env.summary.SummaryRejected? || env.insertOk)
  {
    var uploads := Uploads(form, env);
    if form.image.Some? && !env.uploadOk then
      Outcome(false, uploads + [Alert(UPLOAD_FAILED_MESSAGE)])
    else
      var summarised := uploads + [Summarize(SummaryPrompt(form.description))];
      if env.summary.SummaryRejected? then Outcome(true, summarised)
      else
        var stored := summarised + [Insert(SCAMS_TABLE, RecordOf(form, pos, env))];
        if env.insertOk then Outcome(true, stored + [Alert(SUBMITTED_MESSAGE), Navigate(HOME_HREF)])
        else Outcome(false, stored + [Alert(INSERT_FAILED_MESSAGE)])
  }

  /**
   * `handleSubmit` as a function of the form, the `submitting` flag and the outside
   * world: the flag it leaves and the effects it performs. The re-entrancy guard and
   * the required-field check come first. The flag stays set after a successful run,
   * and also when a call never settles; every failure that is reported clears it.
   */
  function Submit(form: Form, submitting: bool, env: Env): (r: Outcome)
    ensures submitting ==> r == Outcome(true, [])
    ensures !submitting && MissingField(form) ==> !r.submitting && r.effects == [Alert(MISSING_FIELDS_MESSAGE)]
    ensures r.submitting <==> submitting || (!MissingField(form) && (Succeeds(form, env) || Unsettled(form, env)))
  {
    if submitting then Outcome(true, [])
    else if MissingField(form) then Outcome(false, [Alert(MISSING_FIELDS_MESSAGE)])
    else match env.position
      case LocationPending => Outcome(true, [RequestLocation])
      case LocationFailed => Outcome(false, [RequestLocation, Alert(LOCATION_MESSAGE)])
      case Located(pos) =>
        var callback := OnLocated(form, pos, env);
        Outcome(callback.submitting, [RequestLocation] + callback.effects)
  }

  /** Every service call in `es` comes at a stage below `bound`. */
  predicate StagesBelow(es: seq<Effect>, bound: nat) {
    forall i :: 0 <= i < |es| && !es[i].Alert? ==> es[i].Stage() < bound
  }

  /** Every service call in `es` comes at stage `bound` or later. */
  predicate StagesFrom(es: seq<Effect>, bound: nat) {
    forall i :: 0 <= i < |es| && !es[i].Alert? ==> bound <= es[i].Stage()
  }

  /** Two ordered runs of calls, the first wholly before the second, make one ordered run. */
  lemma OrderAppend(a: seq<Effect>, b: seq<Effect>, bound: nat)
    requires InStageOrder(a) && InStageOrder(b) && StagesBelow(a, bound) && StagesFrom(b, bound)
    ensures InStageOrder(a + b)
  {
    var ab := a + b;
    forall i, j | 0 <= i < j < |ab| && !ab[i].Alert? && !ab[j].Alert? ensures ab[i].Stage() < ab[j].Stage() {
      if j < |a| {
        assert ab[i] == a[i] && ab[j] == a[j];
      } else if i >= |a| {
        assert ab[i] == b[i - |a|] && ab[j] == b[j - |a|];
      } else {
        assert ab[i] == a[i] && ab[j] == b[j - |a|];
      }
    }
  }

  /** The only file a submit ever uploads is the form's own image. */
  lemma SubmitUploadsFormImage(form: Form, submitting: bool, env: Env)
    ensures forall e :: e in Submit(form, submitting, env).effects && e.Upload? ==> form.image == Some(e.file)
  {
  }

  /** Two runs of calls all at stage `bound` or later make one such run. */
  lemma StagesFromAppend(a: seq<Effect>, b: seq<Effect>, bound: nat)
    requires StagesFrom(a, bound) && StagesFrom(b, bound)
    ensures StagesFrom(a + b, bound)
  {
    var ab := a + b;
    forall i | 0 <= i < |ab| && !ab[i].Alert? ensures bound <= ab[i].Stage() {
      if i < |a| {
        assert ab[i] == a[i];
      } else {
        assert ab[i] == b[i - |a|];
      }
    }
  }

  // The stage-order lemmas below are proved from small steps. Dafny can prove
  // `CallbackStageOrder` and `SubmitStageOrder` unaided, but only near its
  // resource limit, because it then reasons about whole concatenated sequences
  // at once. `OrderAppend` and `StagesFromAppend` join one run to the next instead.

  /** The runs of the success callback that end at the upload or at the summary request. */
  lemma SummarisedRunsInOrder(uploads: seq<Effect>, prompt: string, failure: string)
    requires uploads == [] || (|uploads| == 1 && uploads[0].Upload?)
    ensures InStageOrder(uploads + [Alert(failure)]) && StagesFrom(uploads + [Alert(failure)], 1)
    ensures InStageOrder(uploads + [Summarize(prompt)]) && StagesFrom(uploads + [Summarize(prompt)], 1)
  {
    OrderAppend(uploads, [Alert(failure)], 2);
    StagesFromAppend(uploads, [Alert(failure)], 1);
    OrderAppend(uploads, [Summarize(prompt)], 2);
    StagesFromAppend(uploads, [Summarize(prompt)], 1);
  }

  /** The runs of the success callback that reach the insert are in stage order. */
  lemma StoredRunsInOrder(uploads: seq<Effect>, prompt: string, row: Record, failure: string, success: string)
    requires uploads == [] || (|uploads| == 1 && uploads[0].Upload?)
    ensures InStageOrder(uploads + [Summarize(prompt)] + [Insert(SCAMS_TABLE, row)] + [Alert(failure)])
    ensures InStageOrder(uploads + [Summarize(prompt)] + [Insert(SCAMS_TABLE, row)] + [Alert(success), Navigate(HOME_HREF)])
  {
    var summarised := uploads + [Summarize(prompt)];
    OrderAppend(uploads, [Summarize(prompt)], 2);
    var stored := summarised + [Insert(SCAMS_TABLE, row)];
    OrderAppend(summarised, [Insert(SCAMS_TABLE, row)], 3);
    OrderAppend(stored, [Alert(failure)], 4);
    OrderAppend(stored, [Alert(success), Navigate(HOME_HREF)], 4);
  }

  /** The runs of the success callback that reach the insert make no location request. */
  lemma StoredRunsAfterLocating(uploads: seq<Effect>, prompt: string, row: Record, failure: string, success: string)
    requires uploads == [] || (|uploads| == 1 && uploads[0].Upload?)
    ensures StagesFrom(uploads + [Summarize(prompt)] + [Insert(SCAMS_TABLE, row)] + [Alert(failure)], 1)
    ensures StagesFrom(uploads + [Summarize(prompt)] + [Insert(SCAMS_TABLE, row)] + [Alert(success), Navigate(HOME_HREF)], 1)
  {
    var summarised := uploads + [Summarize(prompt)];
    StagesFromAppend(uploads, [Summarize(prompt)], 1);
    var stored := summarised + [Insert(SCAMS_TABLE, row)];
    StagesFromAppend(summarised, [Insert(SCAMS_TABLE, row)], 1);
    StagesFromAppend(stored, [Alert(failure)], 1);
    StagesFromAppend(stored, [Alert(success), Navigate(HOME_HREF)], 1);
  }

  /** The success callback's calls come in order: upload, summarise, insert, navigate. */
  lemma CallbackStageOrder(form: Form, pos: Coord, env: Env)
    ensures InStageOrder(OnLocated(form, pos, env).effects)
    ensures StagesFrom(OnLocated(form, pos, env).effects, 1)
  {
    var uploads, prompt := Uploads(form, env), SummaryPrompt(form.description);
    SummarisedRunsInOrder(uploads, prompt, UPLOAD_FAILED_MESSAGE);
    if !env.summary.SummaryRejected? {
      var row := RecordOf(form, pos, env);
      StoredRunsInOrder(uploads, prompt, row, INSERT_FAILED_MESSAGE, SUBMITTED_MESSAGE);
      StoredRunsAfterLocating(uploads, prompt, row, INSERT_FAILED_MESSAGE, SUBMITTED_MESSAGE);
    }
  }

  /** Service calls happen in the order locate, upload, summarise, insert, navigate. */
  lemma SubmitStageOrder(form: Form, submitting: bool, env: Env)
    ensures InStageOrder(Submit(form, submitting, env).effects)
  {
    if !submitting && !MissingField(form) && env.position.Located? {
      var callback := OnLocated(form, env.position.coord, env);
      CallbackStageOrder(form, env.position.coord, env);
      OrderAppend([RequestLocation], callback.effects, 1);
    }
  }

  /** A missing title, description or type performs no geolocation, upload, insert or navigation. */
  lemma MissingFieldHasNoEffects(form: Form, env: Env)
    requires MissingField(form)
    ensures NoWrites(Submit(form, false, env).effects)
    ensures RequestLocation !in Submit(form, false, env).effects
  {
  }

  /** A failed geolocation resets the flag and stops before any upload or insert. */
  lemma LocationFailureStops(form: Form, env: Env)
    requires !MissingField(form) && env.position.LocationFailed?
    ensures Submit(form, false, env) == Outcome(false, [RequestLocation, Alert(LOCATION_MESSAGE)])
    ensures NoWrites(Submit(form, false, env).effects)
  {
  }

  /** A failed upload resets the flag and stops before summarising, inserting or navigating. */
  lemma UploadFailureStops(form: Form, env: Env)
    requires !MissingField(form) && env.position.Located? && form.image.Some? && !env.uploadOk
    ensures !Submit(form, false, env).submitting
    ensures UploadOf(form.image.value, env.now) in Submit(form, false, env).effects
    ensures forall e :: e in Submit(form, false, env).effects ==> !e.Summarize? && !e.Insert? && !e.Navigate?
  {
  }

  /**
   * A call that never settles leaves the flag set, so the button stays disabled,
   * with no insert, no navigation and no alert.
   */
  lemma UnsettledCallLeavesFlagSet(form: Form, env: Env)
    requires !MissingField(form) && Unsettled(form, env)
    ensures Submit(form, false, env).submitting
    ensures forall e :: e in Submit(form, false, env).effects ==> !e.Insert? && !e.Navigate? && !e.Alert?
  {
  }

  /**
   * Exactly one row is inserted once the location is known, any upload went
   * through and the summariser answered: at one position of the effects, and no
   * other position holds an insert. The row carries the geolocated coordinates,
   * the form's fields and the summary text; its image URL is null exactly when
   * no image was attached, otherwise the public URL of the path the image was
   * uploaded to.
   */
  lemma InsertedRecord(form: Form, env: Env)
    requires !MissingField(form) && ReachesInsert(form, env)
    ensures var es := Submit(form, false, env).effects;
      exists k :: 0 <= k < |es| && es[k] == Insert(SCAMS_TABLE, RecordOf(form, env.position.coord, env))
        && forall i :: 0 <= i < |es| && es[i].Insert? ==> i == k
    ensures var row := RecordOf(form, env.position.coord, env);
      && row.title == form.title && row.description == form.description && row.scamType == form.scamType
      && row.lat == env.position.coord.lat && row.lng == env.position.coord.lng
      && (row.imageUrl.None? <==> form.image.None?)
      && (form.image.Some? ==>
            UploadOf(form.image.value, env.now) in Submit(form, false, env).effects
            && row.imageUrl == Some(env.publicUrl(UploadOf(form.image.value, env.now).path)))
      && row.aiSummary == SummaryText(env.summary)
  {
    var es := Submit(form, false, env).effects;
    var k := if form.image.Some? then 3 else 2;
    assert es[k] == Insert(SCAMS_TABLE, RecordOf(form, env.position.coord, env));
  }

  /** A run stopped before the insert inserts nothing, and one stopped before the summariser asks for no summary. */
  lemma InsertOnlyWhenUnblocked(form: Form, submitting: bool, env: Env)
    requires submitting || MissingField(form) || !ReachesInsert(form, env)
    ensures forall e :: e in Submit(form, submitting, env).effects ==> !e.Insert? && !e.Navigate?
    ensures !env.summary.SummaryRejected? ==>
      forall e :: e in Submit(form, submitting, env).effects ==> !e.Summarize?
  {
  }

  /** Navigation home happens exactly when the insert succeeded. */
  lemma NavigatesExactlyOnSuccess(form: Form, env: Env)
    ensures Navigate(HOME_HREF) in Submit(form, false, env).effects <==> !MissingField(form) && Succeeds(form, env)
  {
  }

  /** A failing model call does not block the report: one row is stored with the fallback summary. */
  lemma SummaryFailureStillStores(form: Form, env: Env)
    requires !MissingField(form) && Succeeds(form, env) && env.summary.SummaryFailed?
    ensures Submit(form, false, env).submitting
    ensures Insert(SCAMS_TABLE, RecordOf(form, env.position.coord, env)) in Submit(form, false, env).effects
    ensures RecordOf(form, env.position.coord, env).aiSummary == SUMMARY_FALLBACK
  {
  }

  /** When the form's image passed the validator, every uploaded file is at most 5 MiB and of an image type. */
  lemma OnlyValidatedImagesUploaded(form: Form, submitting: bool, env: Env)
    requires form.image.Some? ==> CheckImage(form.image.value) == Accepted
    ensures forall e :: e in Submit(form, submitting, env).effects && e.Upload? ==>
      CheckImage(e.file) == Accepted && e.file.size <= MAX_IMAGE_BYTES && IsPrefix(IMAGE_TYPE_PREFIX, e.contentType)
  {
    SubmitUploadsFormImage(form, submitting, env);
  }

  // ------------------------------------------------------------ the page object

  /** The page component's state: the form, the `submitting` flag, and what it has done so far. */
  class ReportForm {
    var form: Form
    var submitting: bool
    ghost var trace: seq<Effect>

    /** The form only ever holds an image that passed `handleImageChange`'s checks. */
    ghost predicate Valid()
      reads this
    {
      form.image.Some? ==> CheckImage(form.image.value) == Accepted
    }

    constructor ()
      ensures Valid()
      ensures form == INITIAL_FORM && !submitting && trace == []
    {
      form := INITIAL_FORM;
      submitting := false;
      trace := [];
    }

    /** `handleChange`: one text field takes the typed value. */
    method HandleChange(name: Field, value: string)
      requires Valid()
      modifies this
      ensures Valid()
      ensures form == SetField(old(form), name, value)
      ensures submitting == old(submitting) && trace == old(trace)
    {
      form := SetField(form, name, value);
    }

    /** `handleImageChange`: the first chosen file replaces the image if it passes both checks. */
    method HandleImageChange(files: seq<File>)
      requires Valid()
      modifies this
      ensures Valid()
      ensures |files| == 0 ==> form == old(form) && trace == old(trace)
      ensures |files| > 0 && CheckImage(files[0]) == Accepted ==>
        form == old(form).(image := Some(files[0])) && trace == old(trace)
      ensures |files| > 0 && CheckImage(files[0]) == TooLarge ==>
        form == old(form) && trace == old(trace) + [Alert(TOO_LARGE_MESSAGE)]
      ensures |files| > 0 && CheckImage(files[0]) == NotAnImage ==>
        form == old(form) && trace == old(trace) + [Alert(NOT_IMAGE_MESSAGE)]
      ensures submitting == old(submitting)
    {
      if |files| > 0 {
        var file := files[0];
        if file.size > MAX_IMAGE_BYTES {
          trace := trace + [Alert(TOO_LARGE_MESSAGE)];
          return;
        }
        if !IsPrefix(IMAGE_TYPE_PREFIX, file.contentType) {
          trace := trace + [Alert(NOT_IMAGE_MESSAGE)];
          return;
        }
        form := form.(image := Some(file));
      }
    }

    /**
     * `handleSubmit`, run against the outside world `env` until it finishes or
     * waits on a call that never settles. Every file it uploads passed the validator.
     */
    method HandleSubmit(env: Env)
      requires Valid()
      modifies this
      ensures Valid() && form == old(form)
      ensures submitting == Submit(old(form), old(submitting), env).submitting
      ensures trace == old(trace) + Submit(old(form), old(submitting), env).effects
      ensures forall e :: e in Submit(old(form), old(submitting), env).effects && e.Upload? ==> CheckImage(e.file) == Accepted
    {
      OnlyValidatedImagesUploaded(form, submitting, env);
      if submitting {
        return;
      }
      submitting := true;
      if form.title == "" || form.description == "" || form.scamType == "" {
        trace := trace + [Alert(MISSING_FIELDS_MESSAGE)];
        submitting := false;
        return;
      }
      trace := trace + [RequestLocation];
      if env.position.LocationPending? {
        return;
      }
      if env.position.LocationFailed? {
        trace := trace + [Alert(LOCATION_MESSAGE)];
        submitting := false;
        return;
      }
      OnPosition(env.position.coord, env);
    }

    /**
     * The success callback, run with the position once `getCurrentPosition` has
     * one. Success leaves `submitting` alone; a reported failure clears it.
     */
    method OnPosition(pos: Coord, env: Env)
      requires Valid()
      modifies this
      ensures Valid() && form == old(form)
      ensures submitting == (old(submitting) && OnLocated(old(form), pos, env).submitting)
      ensures trace == old(trace) + OnLocated(old(form), pos, env).effects
    {
      var imageUrl: Option<string> := None;
      if form.image.Some? {
        var file := form.image.value;
        var filePath := UPLOAD_DIR + DecimalString(env.now) + "." + FileExt(file.name);
        trace := trace + [Upload(BUCKET, filePath, file, file.contentType, CACHE_CONTROL, false)];
        if !env.uploadOk {
          trace := trace + [Alert(UPLOAD_FAILED_MESSAGE)];
          submitting := false;
          return;
        }
        imageUrl := Some(env.publicUrl(filePath));
      }
      trace := trace + [Summarize(SUMMARY_INSTRUCTION + form.description)];
      if env.summary.SummaryRejected? {
        return;
      }
      var aiSummary := SummaryText(env.summary);
      var row := Record(form.title, form.description, form.scamType, pos.lat, pos.lng,
                        imageUrl, aiSummary, env.isoTime);
      trace := trace + [Insert(SCAMS_TABLE, row)];
      if !env.insertOk {
        trace := trace + [Alert(INSERT_FAILED_MESSAGE)];
        submitting := false;
        return;
      }
      trace := trace + [Alert(SUBMITTED_MESSAGE), Navigate(HOME_HREF)];
    }
  }
}
