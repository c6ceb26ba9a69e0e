/**
 * Agent settings: one stored row holding the whole settings object as JSON plus two
 * flattened columns (signature, autoReply), the defaults GET overlays it on, the section
 * check of POST and the one-key update of PUT.
 */
module Settings {
  import opened Wrappers
  import opened Text

  /** JSON values; objects are maps, so key order is not modelled. */
  datatype Json = JNull | JBool(b: bool) | JNum(n: real) | JStr(s: string) | JArr(items: seq<Json>) | JObj(fields: map<string, Json>)

  /** JavaScript truthiness of a parsed JSON value. */
  predicate Truthy(v: Json)
  {
    match v
    case JNull => false
    case JBool(b) => b
    case JNum(n) => n != 0.0
    case JStr(s) => s != ""
    case JArr(_) => true
    case JObj(_) => true
  }

  /** `obj[key]` on a parsed object; `None` is `undefined`. */
  function Member(v: Json, key: string): (r: Option<Json>)
    ensures r.Some? <==> v.JObj? && key in v.fields
  {
    if v.JObj? && key in v.fields then Some(v.fields[key]) else None
  }

  /** The `settings` column: a parsed object, or text that does not parse as one. */
  datatype Stored = Parsed(obj: map<string, Json>) | Corrupt

  datatype SettingsRow = SettingsRow(signature: Option<string>, autoReply: Option<bool>, settings: Stored)

  const DefaultSignature := "Dubai Travel Agent\nYour Dream Dubai Experience Awaits!"

  const DefaultEmail: map<string, Json> := map[
    "autoReply" := JBool(true),
    "processingDelay" := JNum(0.0),
    "maxEmailsPerHour" := JNum(100.0),
    "escalationThreshold" := JNum(0.8),
    "responseTemplate" := JStr("professional"),
    "signatureEnabled" := JBool(true),
    "signature" := JStr(DefaultSignature)
  ]

  const Defaults: map<string, Json> := map[
    "ai" := JObj(map[
      "model" := JStr("gpt-4-turbo-preview"),
      "temperature" := JNum(0.7),
      "maxTokens" := JNum(2000.0),
      "timeout" := JNum(30000.0),
      "fallbackEnabled" := JBool(true),
      "languageDetection" := JBool(true),
      "sentimentAnalysis" := JBool(true),
      "purchasePrediction" := JBool(true)]),
    "email" := JObj(DefaultEmail),
    "purchaseAlerts" := JObj(map[
      "enabled" := JBool(true),
      "readinessThreshold" := JNum(0.8),
      "highValueThreshold" := JNum(10000.0),
      "urgentResponseTime" := JNum(2.0),
      "emailNotifications" := JBool(true),
      "slackNotifications" := JBool(false),
      "smsNotifications" := JBool(false),
      "salesTeamEmail" := JStr("sales@dubaitravel.com")]),
    "notifications" := JObj(map[
      "escalationEmail" := JStr("agent@dubaitravel.com"),
      "slackWebhookUrl" := JStr(""),
      "smsApiKey" := JStr(""),
      "smsPhoneNumber" := JStr(""),
      "emailEnabled" := JBool(true),
      "slackEnabled" := JBool(false),
      "smsEnabled" := JBool(false)]),
    "languages" := JObj(map[
      "supported" := JArr([JStr("pl"), JStr("en"), JStr("fr"), JStr("de"), JStr("es"), JStr("it"), JStr("ru")]),
      "defaultLanguage" := JStr("pl"),
      "autoDetection" := JBool(true),
      "fallbackLanguage" := JStr("en")]),
    "knowledgeBase" := JObj(map[
      "autoUpdate" := JBool(true),
      "searchEnabled" := JBool(true),
      "maxResults" := JNum(10.0),
      "relevanceThreshold" := JNum(0.7),
      "categoriesEnabled" := JBool(true)]),
    "performance" := JObj(map[
      "cacheEnabled" := JBool(true),
      "cacheTTL" := JNum(3600.0),
      "rateLimiting" := JBool(true),
      "maxRequestsPerMinute" := JNum(60.0),
      "timeoutSeconds" := JNum(30.0)])
  ]

  const RequiredSections: seq<string> := ["ai", "email", "purchaseAlerts", "notifications", "languages", "knowledgeBase", "performance"]

  /** The defaults carry every required section. */
  lemma DefaultsHaveEverySection()
    ensures forall s :: s in RequiredSections ==> s in Defaults && Truthy(Defaults[s])
  {
  }

  /** `settings[name]`, `undefined` read as null. */
  function Section(body: map<string, Json>, name: string): Json
  {
    if name in body then body[name] else JNull
  }

  /**
   * After the row is written, POST copies four values into the environment with
   * `value.toString()` when `value !== undefined`. An explicit `null` passes that test and the
   * call throws.
   */
  predicate NullEnvValue(body: map<string, Json>)
  {
    || Member(Section(body, "purchaseAlerts"), "readinessThreshold") == Some(JNull)
    || Member(Section(body, "purchaseAlerts"), "highValueThreshold") == Some(JNull)
    || Member(Section(body, "notifications"), "smsEnabled") == Some(JNull)
    || Member(Section(body, "notifications"), "slackEnabled") == Some(JNull)
  }

  predicate Present(body: map<string, Json>, section: string)
  {
    section in body && Truthy(body[section])
  }

  /** Position of the first section, in the given order, that is absent or falsy. */
  function FirstMissingIndex(body: map<string, Json>, sections: seq<string>): (r: Option<nat>)
    ensures r.None? <==> forall i :: 0 <= i < |sections| ==> Present(body, sections[i])
    ensures r.Some? ==> r.value < |sections| && !Present(body, sections[r.value])
                        && forall j :: 0 <= j < r.value ==> Present(body, sections[j])
  {
    if sections == [] then None
    else if !Present(body, sections[0]) then Some(0)
    else
      match FirstMissingIndex(body, sections[1..])
      case None => None
      case Some(i) => Some(i + 1)
  }

  /** The first required section, in the fixed order, that is absent or falsy. */
  function FirstMissing(body: map<string, Json>, sections: seq<string>): (r: Option<string>)
    ensures r.None? <==> forall s :: s in sections ==> Present(body, s)
    ensures r.Some? ==> r.value in sections && !Present(body, r.value)
    ensures r.Some? ==> FirstMissingIndex(body, sections).Some?
                        && r.value == sections[FirstMissingIndex(body, sections).value]
  {
    match FirstMissingIndex(body, sections)
    case None => None
    case Some(i) => Some(sections[i])
  }

  /** The effective `email` section GET reports, built from the defaults and the two columns. */
  function EffectiveEmail(row: SettingsRow): (r: map<string, Json>)
    ensures r.Keys == DefaultEmail.Keys
    ensures r["signature"] == JStr(if row.signature.Some? && row.signature.value != "" then row.signature.value else DefaultSignature)
    ensures r["autoReply"] == JBool(if row.autoReply.Some? then row.autoReply.value else true)
    ensures forall k :: k in r && k !in {"signature", "autoReply"} ==> r[k] == DefaultEmail[k]
  {
    DefaultEmail["signature" := JStr(if row.signature.Some? && row.signature.value != "" then row.signature.value else DefaultSignature)]
                ["autoReply" := JBool(if row.autoReply.Some? then row.autoReply.value else true)]
  }

  /** `GET /api/settings`. */
  function GetSettings(row: Option<SettingsRow>): (r: map<string, Json>)
    ensures row.None? ==> r == Defaults
    ensures row.Some? && row.value.settings.Corrupt? ==> r == Defaults
    ensures row.Some? && row.value.settings.Parsed? ==>
              r.Keys == Defaults.Keys + row.value.settings.obj.Keys
              && r["email"] == JObj(EffectiveEmail(row.value))
              && (forall k :: k != "email" && k in row.value.settings.obj ==> r[k] == row.value.settings.obj[k])
              && (forall k :: k != "email" && k !in row.value.settings.obj && k in Defaults ==> r[k] == Defaults[k])
  {
    match row
    case None => Defaults
    case Some(stored) =>
      match stored.settings
      case Corrupt => Defaults
      case Parsed(obj) => (Defaults + obj)["email" := JObj(EffectiveEmail(stored))]
  }

  /** Whatever email fields are stored in the JSON, GET reports the same email section. */
  lemma StoredEmailFieldsIgnored(row: SettingsRow, other: Json)
    requires row.settings.Parsed?
    ensures GetSettings(Some(row))["email"]
            == GetSettings(Some(row.(settings := Parsed(row.settings.obj["email" := other]))))["email"]
  {
  }

  /** The outcome of POST. */
  /** `SavedButFailed`: the row was written, then the route answered 500. */
  datatype PostResult = MissingSection(section: string) | Saved | SavedButFailed | ServerError

  /** A column written from a request value: `undefined` keeps the old value, `null` clears it. */
  datatype Column<T> = Keep | Set(value: Option<T>) | Invalid

  function SignatureFrom(v: Option<Json>): Column<string>
  {
    match v
    case None => Keep
    case Some(JNull) => Set(None)
    case Some(JStr(s)) => Set(Some(s))
    case Some(_) => Invalid
  }

  function AutoReplyFrom(v: Option<Json>): Column<bool>
  {
    match v
    case None => Keep
    case Some(JNull) => Set(None)
    case Some(JBool(b)) => Set(Some(b))
    case Some(_) => Invalid
  }

  function Apply<T>(c: Column<T>, current: Option<T>): Option<T>
    requires !c.Invalid?
  {
    if c.Keep? then current else c.value
  }

  /**
   * A property name JavaScript treats as an array index: the decimal rendering, without
   * leading zeros, of a number below 2^32 - 1.
   */
  predicate IsIndexKey(key: string)
  {
    && |key| >= 1 && (forall i :: 0 <= i < |key| ==> '0' <= key[i] <= '9')
    && (key[0] != '0' || key == "0")
    && DigitsValue(key) < 0xFFFF_FFFF
  }

  /** Every index below 2^32 - 1, written out in decimal, is an index key naming that index. */
  lemma {:induction false} RenderedIndexIsIndexKey(i: nat)
    requires i < 0xFFFF_FFFF
    ensures IsIndexKey(NatToString(i)) && DigitsValue(NatToString(i)) == i
  {
    NatToStringRoundTrip(i);
    LeadingDigit(i);
  }

  lemma {:induction false} LeadingDigit(n: nat)
    ensures NatToString(n)[0] == '0' <==> n == 0
    ensures n == 0 ==> NatToString(n) == "0"
  {
    if n >= 10 {
      LeadingDigit(n / 10);
    }
  }

  /** The length a number sets on an array, or `None` when JavaScript refuses it with a RangeError. */
  function LengthValue(v: Json): (r: Option<nat>)
    ensures r.Some? ==> v.JNum? && v.n == r.value as real && r.value < 0x1_0000_0000
    ensures v.JNum? && 0.0 <= v.n && v.n == v.n.Floor as real && v.n < 4294967296.0 ==> r.Some?
  {
    if v.JNum? && 0.0 <= v.n && v.n == v.n.Floor as real && v.n.Floor < 0x1_0000_0000 then Some(v.n.Floor)
    else None
  }

  /** `items` resized to `n`, cut off or padded with the holes `JSON.stringify` writes as `null`. */
  function Resized(items: seq<Json>, n: nat): (r: seq<Json>)
    ensures |r| == n
    ensures forall i :: 0 <= i < n ==> r[i] == (if i < |items| then items[i] else JNull)
  {
    if n <= |items| then items[..n] else items + seq(n - |items|, _ => JNull)
  }

  /**
   * The array after `items[key] = value`, as `JSON.stringify` writes it back: an index key
   * sets that element, growing the array with holes; `length` resizes it; any other key adds
   * a property that the JSON text leaves out. `None` when the new length is refused.
   */
  function ArrayPut(items: seq<Json>, key: string, value: Json): (r: Option<seq<Json>>)
    ensures r.None? <==> key == "length" && LengthValue(value).None?
    ensures IsIndexKey(key) ==>
              var i := DigitsValue(key);
              && r.Some? && |r.value| == (if i < |items| then |items| else i + 1) && r.value[i] == value
              && forall j :: 0 <= j < |r.value| && j != i ==> r.value[j] == (if j < |items| then items[j] else JNull)
    ensures key == "length" && r.Some? ==> r.value == Resized(items, LengthValue(value).value)
    ensures !IsIndexKey(key) && key != "length" ==> r == Some(items)
  {
    if IsIndexKey(key) then
      var i := DigitsValue(key);
      Some(Resized(items, if i < |items| then |items| else i + 1)[i := value])
    else if key == "length" then
      match LengthValue(value)
      case Some(n) => Some(Resized(items, n))
      case None => None
    else Some(items)
  }

  /**
   * The new settings object PUT builds: a missing or falsy section starts as `{}`, an object
   * gets the key set, an array is updated as ArrayPut says. `None` when the assignment
   * throws: on a string, number or `true` section, or on an array length JavaScript refuses.
   */
  function PutSection(obj: map<string, Json>, section: string, key: string, value: Json): (r: Option<map<string, Json>>)
    ensures r.Some? ==> r.value.Keys == obj.Keys + {section}
    ensures r.Some? ==> forall s :: s in obj && s != section ==> r.value[s] == obj[s]
    ensures !Present(obj, section) || obj[section].JObj? ==>
              r.Some? && r.value[section].JObj? && key in r.value[section].fields
              && r.value[section].fields[key] == value
    ensures Present(obj, section) && obj[section].JObj? ==>
              r.Some? && r.value[section].fields == obj[section].fields[key := value]
    ensures !Present(obj, section) ==> r == Some(obj[section := JObj(map[key := value])])
    ensures Present(obj, section) && obj[section].JArr? ==>
              var next := ArrayPut(obj[section].items, key, value);
              && (r.Some? <==> next.Some?)
              && (r.Some? ==> r.value[section] == JArr(next.value))
    ensures r.None? <==> Present(obj, section) && !obj[section].JObj?
                         && (!obj[section].JArr? || ArrayPut(obj[section].items, key, value).None?)
  {
    if !Present(obj, section) then Some(obj[section := JObj(map[key := value])])
    else match obj[section]
      case JObj(fields) => Some(obj[section := JObj(fields[key := value])])
      case JArr(items) =>
        (match ArrayPut(items, key, value)
         case Some(next) => Some(obj[section := JArr(next)])
         case None => None)
      case _ => None
  }

  /** The single settings row, if any. */
  class SettingsTable {
    var row: Option<SettingsRow>

    constructor()
      ensures row.None?
    {
      row := None;
    }

    function Get(): map<string, Json>
      reads this
    {
      GetSettings(row)
    }

    /**
     * `POST /api/settings`: refuse with the first missing section, else write the whole
     * object and copy `email.signature` and `email.autoReply` into the columns. A `null`
     * threshold or notification flag then makes the environment step throw: the row stays
     * written and the answer is 500.
     */
    method Post(body: map<string, Json>) returns (r: PostResult)
      modifies this
      ensures FirstMissing(body, RequiredSections).Some? ==>
                r == MissingSection(FirstMissing(body, RequiredSections).value) && row == old(row)
      ensures FirstMissing(body, RequiredSections).None? ==>
                var sig := SignatureFrom(Member(Section(body, "email"), "signature"));
                var auto := AutoReplyFrom(Member(Section(body, "email"), "autoReply"));
                if sig.Invalid? || auto.Invalid? then r == ServerError && row == old(row)
                else
                  var before := if old(row).Some? then old(row).value else SettingsRow(None, None, Parsed(map[]));
                  && r == (if NullEnvValue(body) then SavedButFailed else Saved)
                  && row == Some(SettingsRow(Apply(sig, before.signature), Apply(auto, before.autoReply), Parsed(body)))
    {
      var missing := FirstMissing(body, RequiredSections);
      if missing.Some? {
        return MissingSection(missing.value);
      }
      var sig := SignatureFrom(Member(Section(body, "email"), "signature"));
      var auto := AutoReplyFrom(Member(Section(body, "email"), "autoReply"));
      if sig.Invalid? || auto.Invalid? {
        return ServerError;
      }
      var before := if row.Some? then row.value else SettingsRow(None, None, Parsed(map[]));
      row := Some(SettingsRow(Apply(sig, before.signature), Apply(auto, before.autoReply), Parsed(body)));
      r := if NullEnvValue(body) then SavedButFailed else Saved;
    }

    /**
     * `PUT /api/settings`: set `settings[section][key]`, starting from the stored object, or
     * from `{}` when there is no row or its JSON does not parse. Only the JSON column changes.
     */
    method Put(section: string, key: string, value: Json) returns (ok: bool)
      modifies this
      ensures var current := if old(row).Some? && old(row).value.settings.Parsed? then old(row).value.settings.obj else map[];
              var next := PutSection(current, section, key, value);
              && (ok <==> next.Some?)
              && (next.None? ==> row == old(row))
              && (next.Some? && old(row).Some? ==> row == Some(old(row).value.(settings := Parsed(next.value))))
              && (next.Some? && old(row).None? ==> row == Some(SettingsRow(None, None, Parsed(next.value))))
    {
      var current := if row.Some? && row.value.settings.Parsed? then row.value.settings.obj else map[];
      var next := PutSection(current, section, key, value);
      if next.None? {
        return false;
      }
      if row.Some? {
        row := Some(row.value.(settings := Parsed(next.value)));
      } else {
        row := Some(SettingsRow(None, None, Parsed(next.value)));
      }
      ok := true;
    }
  }

  /** After a successful POST, GET reports every stored section except `email` as sent. */
  lemma PostThenGet(body: map<string, Json>, sig: Option<string>, auto: Option<bool>)
    ensures var g := GetSettings(Some(SettingsRow(sig, auto, Parsed(body))));
            forall k :: k in body && k != "email" ==> g[k] == body[k]
  {
  }

  /** A corrupt stored object makes PUT start over: only the updated section survives. */
  lemma PutOnCorruptDropsOtherSections(row: SettingsRow, section: string, key: string, value: Json)
    requires row.settings.Corrupt?
    ensures var current := if row.settings.Parsed? then row.settings.obj else map[];
            PutSection(current, section, key, value) == Some(map[section := JObj(map[key := value])])
  {
  }
}
