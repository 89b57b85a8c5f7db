/** The photographer's portal settings pages: the profile form (stripping, URL, payout and bio
    checks), the watermark form, and the `state` check of the Mercado Pago OAuth callback. */
module ProfileSettings {
  import opened Wrappers
  import Text
  import Partners
  import Orm

  // ---------------------------------------------------------------------------------------
  // Profile form

  /** The partner fields the profile form edits. */
  datatype Field =
    | FirstName | LastName | Bio | Portfolio | Reservoir | Instagram
    | Whatsapp | Payout | PayoutAccount | BankName | BankAlias | Cbu

  /** The partner field name of each, which is also its key in the posted form. */
  function FieldName(f: Field): string {
    match f
    case FirstName => "photographer_first_name"
    case LastName => "photographer_last_name"
    case Bio => "photographer_bio"
    case Portfolio => "portfolio_url"
    case Reservoir => "photo_reservoir_url"
    case Instagram => "instagram_account"
    case Whatsapp => "phone_whatsapp"
    case Payout => "payout_preference"
    case PayoutAccount => "payout_account"
    case BankName => "bank_name_or_wallet"
    case BankAlias => "bank_alias"
    case Cbu => "cbu_cvu"
  }

  /** The fields of the profile page, in the order it checks them. */
  const ProfileFields: seq<Field> := [
    FirstName, LastName, Bio, Portfolio, Reservoir, Instagram,
    Whatsapp, Payout, PayoutAccount, BankName, BankAlias, Cbu]

  /** The codes of the `payout_preference` selection on partners. */
  const PayoutOptions: set<string> := {"mercadopago", "bank_transfer", "cash"}
  const DefaultPayout := "mercadopago"
  const MaxBioLength := 2000

  datatype ProfileError = BadUrl(fieldName: string) | BadPayout | BioTooLong

  /** The URL fields and the name their error gives. */
  function UrlLabel(f: Field): Option<string> {
    match f
    case Portfolio => Some("Portfolio")
    case Reservoir => Some("Reservorio de fotos")
    case _ => None
  }

  /** `(payload.get(key) or '').strip()`: a posted value, `""` when it was not posted. */
  function Clean(payload: map<string, string>, key: string): (r: string)
    ensures r != "" ==> key in payload && payload[key] != ""
    ensures |r| <= |if key in payload then payload[key] else ""|
  {
    Text.Strip(if key in payload then payload[key] else "")
  }

  /** `value.lower().startswith(('http://', 'https://'))` */
  predicate IsWebUrl(v: string) {
    Text.StartsWithLowered(v, "http://") || Text.StartsWithLowered(v, "https://")
  }

  /** `value or False`: an empty value clears the field (`None` stands for `False`). */
  function OrFalse(v: string): (r: Option<string>)
    ensures r.None? <==> v == ""
    ensures r.Some? ==> r.value == v
  {
    if v == "" then None else Some(v)
  }

  /** What checking one field gives: the error it adds, the value it writes (`None` when it
      writes nothing) and the value shown back in the form. */
  datatype FieldCheck = FieldCheck(error: Option<ProfileError>, write: Option<Option<string>>, shown: string)

  /** The check of one field on its stripped value. */
  function CheckField(f: Field, value: string): FieldCheck
  {
    if UrlLabel(f).Some? then
      var error := if value != "" && !IsWebUrl(value) then Some(BadUrl(UrlLabel(f).value)) else None;
      FieldCheck(error, Some(OrFalse(value)), value)
    else if f == Payout then
      if value != "" && value !in PayoutOptions then FieldCheck(Some(BadPayout), None, value)
      else
        var chosen := if value == "" then DefaultPayout else value;
        FieldCheck(None, Some(Some(chosen)), chosen)
    else if f == Bio then
      var error := if value != "" && |value| > MaxBioLength then Some(BioTooLong) else None;
      FieldCheck(error, Some(OrFalse(value)), value)
    else FieldCheck(None, Some(OrFalse(value)), value)
  }

  /** The rules of the field check: a non-empty URL must start with http:// or https://
      (ignoring case); a non-empty payout preference must be one of the selection's codes, and
      an empty one is the default; a non-empty bio may not exceed 2000 characters; every
      other field is written as posted, an empty value clearing it. */
  lemma CheckFieldRules(f: Field, value: string)
    ensures var r := CheckField(f, value);
      && (f in {Portfolio, Reservoir} ==>
            && (r.error.Some? <==> value != "" && !IsWebUrl(value))
            && (r.error.Some? ==> r.error.value == BadUrl(UrlLabel(f).value))
            && r.write == Some(OrFalse(value)) && r.shown == value)
      && (f == Payout ==>
            && (r.error.Some? <==> value != "" && value !in PayoutOptions)
            && (r.error.Some? ==> r.error.value == BadPayout && r.write.None? && r.shown == value)
            && (r.error.None? ==> var chosen := if value == "" then DefaultPayout else value;
                  chosen in PayoutOptions && r.write == Some(Some(chosen)) && r.shown == chosen))
      && (f == Bio ==>
            && (r.error.Some? <==> |value| > MaxBioLength)
            && (r.error.Some? ==> r.error.value == BioTooLong)
            && r.write == Some(OrFalse(value)) && r.shown == value)
      && (f !in {Portfolio, Reservoir, Payout, Bio} ==>
            r.error.None? && r.write == Some(OrFalse(value)) && r.shown == value)
  {
  }

  /** The form after the loop over the fields: values to write, errors, and values shown. */
  datatype ProfileUpdate = ProfileUpdate(
    write: map<Field, Option<string>>,
    errors: seq<ProfileError>,
    shown: map<Field, string>)

  /** A form state with one more checked field. */
  function Checked(u: ProfileUpdate, f: Field, c: FieldCheck): ProfileUpdate {
    ProfileUpdate(
      if c.write.Some? then u.write[f := c.write.value] else u.write,
      if c.error.Some? then u.errors + [c.error.value] else u.errors,
      u.shown[f := c.shown])
  }

  /** The check of a field on its posted value. */
  function Outcome(payload: map<string, string>, f: Field): FieldCheck {
    CheckField(f, Clean(payload, FieldName(f)))
  }

  /** A field loop, field by field, with the check of each field given as a function. */
  function CheckAll(fields: seq<Field>, check: Field -> FieldCheck): ProfileUpdate {
    if fields == [] then ProfileUpdate(map[], [], map[])
    else
      var f := fields[|fields| - 1];
      Checked(CheckAll(fields[..|fields| - 1], check), f, check(f))
  }

  /** The field loop of `_prepare_profile_update`: each field checked on its posted value. */
  function CheckFields(payload: map<string, string>, fields: seq<Field>): ProfileUpdate {
    CheckAll(fields, f => Outcome(payload, f))
  }

  lemma CheckFieldsStep(payload: map<string, string>, fields: seq<Field>, i: nat)
    requires i < |fields|
    ensures CheckFields(payload, fields[..i + 1])
      == Checked(CheckFields(payload, fields[..i]), fields[i], Outcome(payload, fields[i]))
  {
    assert fields[..i + 1][..i] == fields[..i];
  }

  /** Each field is written with its checked value (an errored payout preference is not
      written), each is shown, and the error list is empty exactly when every field passes. */
  lemma {:induction false} CheckAllExact(fields: seq<Field>, check: Field -> FieldCheck)
    ensures var u := CheckAll(fields, check);
      && (forall f :: f in u.write <==> f in fields && check(f).write.Some?)
      && (forall f :: f in u.write ==> u.write[f] == check(f).write.value)
      && (forall f :: f in u.shown <==> f in fields)
      && (forall f :: f in u.shown ==> u.shown[f] == check(f).shown)
      && (u.errors == [] <==> forall f :: f in fields ==> check(f).error.None?)
    decreases |fields|
  {
    if fields != [] {
      CheckAllExact(fields[..|fields| - 1], check);
      assert forall f :: f in fields <==> f in fields[..|fields| - 1] || f == fields[|fields| - 1];
    }
  }

  /** A field of a loop without errors passed its check, and is written as the check says. */
  lemma CheckedFieldPassed(fields: seq<Field>, check: Field -> FieldCheck, f: Field)
    requires f in fields && CheckAll(fields, check).errors == []
    ensures check(f).error.None?
    ensures check(f).write.Some? ==>
      f in CheckAll(fields, check).write && CheckAll(fields, check).write[f] == check(f).write.value
  {
    CheckAllExact(fields, check);
  }

  /** The preference fallback as written: when no preference is posted the value already chosen
      (always the default after the loop) wins over the partner's stored preference. */
  function FinalPayoutAsWritten(payload: map<string, string>, u: ProfileUpdate, stored: Option<string>)
    : (r: map<Field, Option<string>>)
    ensures u.errors != [] || Clean(payload, FieldName(Payout)) != "" ==> r == u.write
  {
    var key := FieldName(Payout);
    if u.errors == [] && (key !in payload || payload[key] == "") then
      var chosen := if Payout in u.write && u.write[Payout].Some? && u.write[Payout].value != ""
        then u.write[Payout].value
        else if stored.Some? && stored.value != "" then stored.value
        else DefaultPayout;
      u.write[Payout := Some(chosen)]
    else u.write
  }

  /** Whenever the form edits the preference, a submission without one overwrites a partner's
      stored 'bank_transfer' with the default: the fallback to the stored value never applies. */
  lemma StoredPreferenceOverwritten(fields: seq<Field>)
    requires Payout in fields
    ensures var u := CheckFields(map[], fields);
      && u.errors == []
      && FinalPayoutAsWritten(map[], u, Some("bank_transfer"))[Payout] == Some(DefaultPayout)
  {
    var check := f => Outcome(map[], f);
    CheckAllExact(fields, check);
    forall f | f in fields
      ensures check(f).error.None?
    {
      assert Clean(map[], FieldName(f)) == "";
    }
    CheckedFieldPassed(fields, check, Payout);
  }

  /** The preference fallback as intended: a submission without a preference keeps the
      partner's stored preference, or sets the default when there is none. */
  function FinalPayout(payload: map<string, string>, u: ProfileUpdate, stored: Option<string>)
    : (r: map<Field, Option<string>>)
    ensures u.errors != [] || Clean(payload, FieldName(Payout)) != "" ==> r == u.write
    ensures u.errors == [] && FieldName(Payout) !in payload ==>
      r == u.write[Payout := Some(if stored.Some? && stored.value != "" then stored.value else DefaultPayout)]
  {
    var key := FieldName(Payout);
    if u.errors == [] && (key !in payload || payload[key] == "") then
      u.write[Payout := Some(if stored.Some? && stored.value != "" then stored.value else DefaultPayout)]
    else u.write
  }

  /** With the intended fallback, a submission without a preference keeps the partner's
      stored one. */
  lemma PayoutPreferenceKept(payload: map<string, string>, fields: seq<Field>, stored: Option<string>)
    requires CheckFields(payload, fields).errors == []
    ensures FieldName(Payout) !in payload && stored.Some? && stored.value != "" ==>
      FinalPayout(payload, CheckFields(payload, fields), stored)[Payout] == stored
  {
  }

  /** A posted preference that passes its check is one of the selection's codes and is
      written as posted. */
  lemma PostedPayoutRule(value: string)
    requires value != "" && CheckField(Payout, value).error.None?
    ensures value in PayoutOptions && CheckField(Payout, value).write == Some(Some(value))
  {
  }

  /** With either fallback, a posted preference on a form without errors is written as
      posted, and it is one of the selection's codes. */
  lemma PostedPreferenceWritten(payload: map<string, string>, fields: seq<Field>, stored: Option<string>)
    requires Payout in fields && CheckFields(payload, fields).errors == []
    requires Clean(payload, FieldName(Payout)) != ""
    ensures var r := FinalPayout(payload, CheckFields(payload, fields), stored);
      && Payout in r && r[Payout] == Some(Clean(payload, FieldName(Payout)))
      && Clean(payload, FieldName(Payout)) in PayoutOptions
  {
    var check := f => Outcome(payload, f);
    var value := Clean(payload, FieldName(Payout));
    CheckedFieldPassed(fields, check, Payout);
    assert check(Payout) == CheckField(Payout, value);
    PostedPayoutRule(value);
  }

  /** One pass of the field loop: the field's check applied to the form state. */
  method CheckOne(f: Field, value: string, write0: map<Field, Option<string>>, errors0: seq<ProfileError>,
                  shown0: map<Field, string>)
    returns (write: map<Field, Option<string>>, errors: seq<ProfileError>, shown: map<Field, string>)
    ensures ProfileUpdate(write, errors, shown)
      == Checked(ProfileUpdate(write0, errors0, shown0), f, CheckField(f, value))
  {
    write, errors := write0, errors0;
    shown := shown0[f := value];
    if UrlLabel(f).Some? {
      if value != "" && !IsWebUrl(value) {
        errors := errors + [BadUrl(UrlLabel(f).value)];
      }
      write := write[f := OrFalse(value)];
    } else if f == Payout {
      if value != "" && value !in PayoutOptions {
        errors := errors + [BadPayout];
      } else {
        var chosen := if value == "" then DefaultPayout else value;
        write := write[f := Some(chosen)];
        shown := shown[f := chosen];
      }
    } else if f == Bio {
      if value != "" && |value| > MaxBioLength {
        errors := errors + [BioTooLong];
      }
      write := write[f := OrFalse(value)];
    } else {
      write := write[f := OrFalse(value)];
    }
  }

  /** `_prepare_profile_update`: the loop over the fields, then the preference fallback. */
  method PrepareProfileUpdate(payload: map<string, string>, fields: seq<Field>, stored: Option<string>)
    returns (write: map<Field, Option<string>>, errors: seq<ProfileError>, shown: map<Field, string>)
    ensures var u := CheckFields(payload, fields);
      errors == u.errors && shown == u.shown && write == FinalPayout(payload, u, stored)
  {
    write, errors, shown := map[], [], map[];
    var i := 0;
    while i < |fields|
      invariant 0 <= i <= |fields|
      invariant ProfileUpdate(write, errors, shown) == CheckFields(payload, fields[..i])
    {
      var f := fields[i];
      write, errors, shown := CheckOne(f, Clean(payload, FieldName(f)), write, errors, shown);
      CheckFieldsStep(payload, fields, i);
      i := i + 1;
    }
    assert fields[..|fields|] == fields;
    write := FinalPayout(payload, ProfileUpdate(write, errors, shown), stored);
  }

  /** The POST of the profile page: the partner's profile after the submission (written only
      when there are no errors) and the errors shown. */
  method SubmitProfile(profile: map<Field, Option<string>>, payload: map<string, string>)
    returns (saved: map<Field, Option<string>>, errors: seq<ProfileError>)
    ensures errors == CheckFields(payload, ProfileFields).errors
    ensures errors != [] ==> saved == profile
    ensures errors == [] ==> saved == profile + FinalPayout(payload, CheckFields(payload, ProfileFields),
      if Payout in profile then profile[Payout] else None)
  {
    var stored := if Payout in profile then profile[Payout] else None;
    var write, shown;
    write, errors, shown := PrepareProfileUpdate(payload, ProfileFields, stored);
    saved := profile;
    assert write == map[] ==> profile + write == profile;
    if errors == [] && write != map[] {
      saved := profile + write;
    }
  }

  // ---------------------------------------------------------------------------------------
  // Watermark form

  /** The watermark form: the uploaded image (`None` when no file was chosen; `Some(None)`
      when the file could not be read), the remove flag, the posted opacity text (`None` when
      absent), and the posted scale as `float()` reads it (`None` when it does not parse). */
  datatype WatermarkForm = WatermarkForm(
    upload: Option<Option<nat>>,
    remove: bool,
    opacity: Option<string>,
    scale: Option<real>)

  datatype WatermarkError = UnreadableImage | BadOpacity | BadScale

  /** The watermark values to write; `None` leaves a field as it is. */
  datatype WatermarkUpdate = WatermarkUpdate(image: Option<Option<nat>>, opacity: Option<int>, scale: Option<real>)

  /** `int(opacity_raw)`, `None` for the raised error. */
  function ParseOpacity(raw: Option<string>): Option<int> {
    if raw.None? then None else Text.ParseInt(raw.value)
  }

  /** `max(0.05, min(scale, 1.0))`. */
  function ClampScale(x: real): real {
    var capped := if x <= 1.0 then x else 1.0;
    if 0.05 >= capped then 0.05 else capped
  }

  /** The uploaded image: a readable file replaces the image, an unreadable one is an error,
      and without a file the remove flag clears it. */
  function ImageUpdate(form: WatermarkForm): (r: (Option<Option<nat>>, seq<WatermarkError>))
    ensures r.1 == (if form.upload == Some(None) then [UnreadableImage] else [])
    ensures form.upload.None? ==> r.0 == (if form.remove then Some(None) else None)
    ensures form.upload.Some? && form.upload.value.Some? ==> r.0 == form.upload
    ensures form.upload == Some(None) ==> r.0.None?
  {
    match form.upload
    case Some(Some(img)) => (Some(Some(img)), [])
    case Some(None) => (None, [UnreadableImage])
    case None => (if form.remove then Some(None) else None, [])
  }

  /** The opacity: an integer from 0 to 100, or an error. */
  function OpacityUpdate(raw: Option<string>): (r: (Option<int>, seq<WatermarkError>))
    ensures r.0.Some? <==> r.1 == []
    ensures r.0.Some? ==> r.0 == ParseOpacity(raw) && 0 <= r.0.value <= 100
    ensures r.0.None? ==>
      r.1 == [BadOpacity] &&
      (ParseOpacity(raw).None? || ParseOpacity(raw).value < 0 || ParseOpacity(raw).value > 100)
  {
    var parsed := ParseOpacity(raw);
    if parsed.None? || parsed.value < 0 || parsed.value > 100 then (None, [BadOpacity]) else (parsed, [])
  }

  /** The scale: a positive number, clamped into [0.05, 1.0], or an error. */
  function ScaleUpdate(x: Option<real>): (r: (Option<real>, seq<WatermarkError>))
    ensures r.0.Some? <==> r.1 == []
    ensures r.0.Some? <==> x.Some? && x.value > 0.0
    ensures r.0.None? ==> r.1 == [BadScale]
    ensures r.0.Some? ==> 0.05 <= r.0.value <= 1.0
    ensures r.0.Some? && 0.05 <= x.value <= 1.0 ==> r.0.value == x.value
    ensures r.0.Some? && x.value < 0.05 ==> r.0.value == 0.05
    ensures r.0.Some? && x.value > 1.0 ==> r.0.value == 1.0
  {
    if x.None? || x.value <= 0.0 then (None, [BadScale]) else (Some(ClampScale(x.value)), [])
  }

  /** The checks of the watermark form, errors in the order the page lists them. */
  function CheckWatermark(form: WatermarkForm): (WatermarkUpdate, seq<WatermarkError>) {
    var image, opacity, scale := ImageUpdate(form), OpacityUpdate(form.opacity), ScaleUpdate(form.scale);
    (WatermarkUpdate(image.0, opacity.0, scale.0), image.1 + opacity.1 + scale.1)
  }

  /** The form passes exactly when the image (if any) was readable, the opacity is an integer
      from 0 to 100 and the scale is positive; it then sets both the opacity and the scale. */
  lemma WatermarkAccepted(form: WatermarkForm)
    ensures CheckWatermark(form).1 == [] <==>
      && form.upload != Some(None)
      && ParseOpacity(form.opacity).Some? && 0 <= ParseOpacity(form.opacity).value <= 100
      && form.scale.Some? && form.scale.value > 0.0
    ensures CheckWatermark(form).1 == [] ==>
      CheckWatermark(form).0.opacity.Some? && CheckWatermark(form).0.scale.Some?
  {
    var image, opacity, scale := ImageUpdate(form), OpacityUpdate(form.opacity), ScaleUpdate(form.scale);
    assert CheckWatermark(form).1 == image.1 + opacity.1 + scale.1;
    assert |image.1 + opacity.1 + scale.1| == |image.1| + |opacity.1| + |scale.1|;
  }

  /** A partner with the watermark values of an update written. */
  function WithWatermark(p: Partners.Partner, u: WatermarkUpdate): Partners.Partner {
    p.(watermarkImage := if u.image.Some? then u.image.value else p.watermarkImage,
       watermarkOpacity := if u.opacity.Some? then u.opacity.value else p.watermarkOpacity,
       watermarkScale := if u.scale.Some? then u.scale.value else p.watermarkScale)
  }

  /** A valid submission writes an opacity and a scale that the watermark payload uses as they are. */
  lemma SavedWatermarkIsUsedAsIs(p: Partners.Partner, form: WatermarkForm)
    requires CheckWatermark(form).1 == []
    ensures var q := WithWatermark(p, CheckWatermark(form).0);
      Partners.GetWatermarkPayload(q).opacity == q.watermarkOpacity
      && Partners.GetWatermarkPayload(q).scale == q.watermarkScale
  {
  }

  /** The POST of the watermark page: the partner is written only when no check failed. */
  method SubmitWatermark(t: Orm.Table<Partners.Partner>, pid: nat, form: WatermarkForm)
    returns (errors: seq<WatermarkError>)
    requires pid in t.rows
    modifies t
    ensures errors == CheckWatermark(form).1
    ensures t.nextId == old(t.nextId)
    ensures errors != [] ==> t.rows == old(t.rows)
    ensures errors == [] ==> t.rows == old(t.rows)[pid := WithWatermark(old(t.rows)[pid], CheckWatermark(form).0)]
  {
    var update;
    update, errors := CheckWatermark(form).0, CheckWatermark(form).1;
    if errors == [] {
      t.rows := t.rows[pid := WithWatermark(t.rows[pid], update)];
    }
  }

  // ---------------------------------------------------------------------------------------
  // OAuth callback

  datatype CallbackOutcome = StateMismatch | MissingCode | MissingSecret | ExchangeCode(code: string)

  /** `mercadopago_oauth_callback` up to the token exchange: the `state` stored in the session
      when the flow started is taken out of the session, and the callback goes on only when the
      returned `state` equals it (section 10.12 of RFC 6749). The second component is the
      session's stored state afterwards. */
  function OAuthCallback(stored: Option<string>, returned: Option<string>, code: Option<string>, clientSecret: string)
    : (r: (CallbackOutcome, Option<string>))
    ensures r.1.None?
    ensures r.0 != StateMismatch <==> stored.Some? && stored.value != "" && returned == stored
    ensures r.0.ExchangeCode? <==>
      stored.Some? && stored.value != "" && returned == stored && code.Some? && code.value != "" && clientSecret != ""
    ensures r.0.ExchangeCode? ==> r.0.code == code.value
  {
    if stored.None? || stored.value == "" || returned != stored then (StateMismatch, None)
    else if code.None? || code.value == "" then (MissingCode, None)
    else if clientSecret == "" then (MissingSecret, None)
    else (ExchangeCode(code.value), None)
  }

  /** A callback replayed after the first one is always rejected, whatever it carries. */
  lemma ReplayedCallbackRejected(stored: Option<string>, returned: Option<string>, code: Option<string>,
                                 secret: string, returned2: Option<string>, code2: Option<string>)
    ensures var first := OAuthCallback(stored, returned, code, secret);
      OAuthCallback(first.1, returned2, code2, secret).0 == StateMismatch
  {
  }
}
