/** The small pure helpers of src/helpers/index.js: the access-code alphabet,
    date reformatting, the status options and their colours, and the
    irregularity summary that goes into the notification e-mail. */
module Helpers {
  import opened Strings
  import opened JsValues

  /** Access codes are drawn from this alphabet, this many characters long. */
  const NANOID_ALPHABET := "ABCDEFGHIJKLMNOPQRSTUVWXYZ0123456789"
  const NANOID_SIZE := 6

  /** What the code generator promises about each code it returns. */
  predicate IsNanoid(code: string)
  {
    |code| == NANOID_SIZE && forall i :: 0 <= i < |code| ==> code[i] in NANOID_ALPHABET
  }

  /** No access code contains the separator that follows it. */
  lemma NanoidHasNoSlash(code: string)
    requires IsNanoid(code)
    ensures '/' !in code
  {
  }

  // ---------------------------------------------------------------- formatDate

  /** Destructuring `[year, month, day]` from too short an array yields
      `undefined`, which a template literal writes as "undefined". */
  function Part(parts: seq<string>, i: nat): string
  {
    if i < |parts| then parts[i] else "undefined"
  }

  /** `formatDate`: "YYYY-MM-DD" becomes "DD/MM/YYYY"; the empty string stays empty. */
  function FormatDate(dateStr: string): (r: string)
    ensures dateStr == "" ==> r == ""
    ensures dateStr != "" ==> '/' in r
  {
    if dateStr == "" then ""
    else
      var parts := Split(dateStr, '-');
      Part(parts, 2) + "/" + Part(parts, 1) + "/" + Part(parts, 0)
  }

  lemma Join3(a: string, b: string, c: string, sep: char)
    ensures Join([a, b, c], [sep]) == a + [sep] + b + [sep] + c
  {
    JoinCons(a, [b, c], [sep]);
    JoinCons(b, [c], [sep]);
    assert [a] + [b, c] == [a, b, c];
    assert [b] + [c] == [b, c];
  }

  /** An ISO date has its three parts written back to front, each unchanged. */
  lemma FormatDateIso(year: string, month: string, day: string)
    requires '-' !in year && '-' !in month && '-' !in day
    ensures FormatDate(year + "-" + month + "-" + day) == day + "/" + month + "/" + year
  {
    var parts := [year, month, day];
    assert Free(parts, '-');
    Join3(year, month, day, '-');
    SplitJoin(parts, '-');
  }

  /** The formatted date splits on "/" into day, month and year: the three
      parts can be read back, so nothing is lost or merged. */
  lemma FormatDateParts(year: string, month: string, day: string)
    requires '-' !in year && '-' !in month && '-' !in day
    requires '/' !in year && '/' !in month && '/' !in day
    ensures Split(FormatDate(year + "-" + month + "-" + day), '/') == [day, month, year]
  {
    FormatDateIso(year, month, day);
    var parts := [day, month, year];
    assert Free(parts, '/');
    Join3(day, month, year, '/');
    SplitJoin(parts, '/');
  }

  /** A non-empty string without "-" has no month or day part. */
  lemma FormatDateNoDash(s: string)
    requires s != "" && '-' !in s
    ensures FormatDate(s) == "undefined/undefined/" + s
  {
    SplitFree(s, '-');
  }

  // ----------------------------------------------------------- formatTimestamp

  /** `formatTimestamp`: `date?.toDate().toLocaleDateString('pt-BR') ?? '—'`.
      Of the values modelled only a stored timestamp has `toDate`; for any
      other non-nullish value the call throws a TypeError (`None`).
      `localeDate` is the text the browser gives for a timestamp in its own
      time zone. */
  function FormatTimestamp(date: Value, localeDate: (int, int) -> string): (r: Option<string>)
    ensures r.None? <==> !Nullish(date) && !date.Timestamp?
    ensures Nullish(date) ==> r == Some("—")
    ensures date.Timestamp? ==> r == Some(localeDate(date.seconds, date.nanoseconds))
  {
    if Nullish(date) then Some("—")
    else if date.Timestamp? then Some(localeDate(date.seconds, date.nanoseconds))
    else None
  }

  // ------------------------------------------------------ statusOptions, colours

  /** The closed set of request statuses, in the order the filters offer them. */
  const STATUS_OPTIONS: seq<string> := ["Deferido", "Indeferido", "Deferido-Parcial", "Aguardando"]

  const STATUS_COLORS: set<string> := {"success", "danger", "info", "default"}

  /** `getStatusColor`: a total mapping; only the three decided statuses get a
      colour of their own, everything else (Aguardando included) is "default". */
  function StatusColor(status: Value): (r: string)
    ensures r in STATUS_COLORS
    ensures r == "success" <==> status == Str("Deferido")
    ensures r == "danger" <==> status == Str("Indeferido")
    ensures r == "info" <==> status == Str("Deferido-Parcial")
    ensures r == "default" <==> status !in {Str("Deferido"), Str("Indeferido"), Str("Deferido-Parcial")}
  {
    match status
    case Str("Deferido") => "success"
    case Str("Indeferido") => "danger"
    case Str("Deferido-Parcial") => "info"
    case _ => "default"
  }

  /** The four status options get four different colours, Aguardando the default one. */
  lemma StatusOptionColors()
    ensures forall i, j :: 0 <= i < j < |STATUS_OPTIONS| ==>
      StatusColor(Str(STATUS_OPTIONS[i])) != StatusColor(Str(STATUS_OPTIONS[j]))
    ensures StatusColor(Str("Aguardando")) == "default"
  {
  }

  // ------------------------------------------------- sendEmail: the summary text

  const AUTHORIZED := "Autorizada"
  const NOT_AUTHORIZED := "Não autorizada"

  /** One summary line: "- <name>: Autorizada" or "- <name>: Não autorizada",
      by the truthiness of the irregularity's `authorized` flag. */
  function IrregularityLine(irregularity: Value): string
  {
    "- " + Display(Prop(irregularity, "name")) + ": "
      + (if Truthy(Prop(irregularity, "authorized")) then AUTHORIZED else NOT_AUTHORIZED)
  }

  function SummaryLines(irregularities: seq<Value>): (r: seq<string>)
    ensures |r| == |irregularities|
  {
    seq(|irregularities|, i requires 0 <= i < |irregularities| => IrregularityLine(irregularities[i]))
  }

  /** The `irregularities_summary` sent with the e-mail: the lines joined by "\n". */
  function IrregularitySummary(irregularities: seq<Value>): string
  {
    Join(SummaryLines(irregularities), "\n")
  }

  /** The summary holds one line per irregularity, in order, and each line
      names the irregularity and its verdict; no irregularity gives "". */
  lemma {:induction false} SummaryHasOneLinePerIrregularity(irregularities: seq<Value>)
    requires forall i :: 0 <= i < |irregularities| ==> '\n' !in Display(Prop(irregularities[i], "name"))
    ensures irregularities == [] ==> IrregularitySummary(irregularities) == ""
    ensures irregularities != [] ==>
      var lines := Split(IrregularitySummary(irregularities), '\n');
      && |lines| == |irregularities|
      && forall i :: 0 <= i < |lines| ==>
        lines[i] == "- " + Display(Prop(irregularities[i], "name")) + ": "
          + (if Truthy(Prop(irregularities[i], "authorized")) then "Autorizada" else "Não autorizada")
  {
    var lines := SummaryLines(irregularities);
    assert Free(lines, '\n') by {
      forall i | 0 <= i < |lines| ensures '\n' !in lines[i] {
        var name := Display(Prop(irregularities[i], "name"));
        var verdict := if Truthy(Prop(irregularities[i], "authorized")) then AUTHORIZED else NOT_AUTHORIZED;
        assert lines[i] == "- " + name + ": " + verdict;
        assert '\n' !in verdict;
      }
    }
    if irregularities != [] {
      SplitJoin(lines, '\n');
    }
  }

  /** The template parameters `sendEmail` hands to the e-mail service. */
  datatype EmailParams = EmailParams(
    toName: Value, toEmail: Value, status: Value, accessCode: Value,
    message: Value, irregularitiesSummary: string, siteUrl: Value)

  /** The parameters of the notification e-mail; `None` where building the
      summary throws before anything is sent: `irregularities` is not an
      array, or one of its elements is null or undefined. */
  function EmailTemplate(request: Entries, siteUrl: Value): (r: Option<EmailParams>)
    ensures r.None? <==>
      || !Get(request, "irregularities").Array?
      || exists i :: 0 <= i < |Get(request, "irregularities").items| && Nullish(Get(request, "irregularities").items[i])
    ensures r.Some? ==>
      && r.value.toEmail == Get(request, "email")
      && r.value.irregularitiesSummary == IrregularitySummary(Get(request, "irregularities").items)
  {
    match Get(request, "irregularities")
    case Array(items) =>
      if exists i :: 0 <= i < |items| && Nullish(items[i]) then None
      else Some(EmailParams(Get(request, "name"), Get(request, "email"), Get(request, "status"),
                       Get(request, "access_code"), Get(request, "opinion"),
                       IrregularitySummary(items), siteUrl))
    case _ => None
  }
}
