/**
 * The string logic of the wiki tools (`functions/wiki.py`): tool-name normalisation, the names
 * derived from it, the repair of resource JSON missing closing braces, the template parameters and
 * their check against the resource table's fields, the wikitext of a new resource, the resource
 * page name and the where clause of a resource query.
 */
module Wiki {
  import opened Options
  import opened Text
  import opened Dicts
  import opened Seqs
  import opened JsonValues

  const WikiBaseUrl := "https://wiki.publicai.co"
  const ToolPrefix := "Tool:"

  /** The canonical page name of a tool: `Tool:` prepended unless it is already there. */
  function NormalizeTool(tool: string): (r: string)
    ensures StartsWith(r, ToolPrefix)
    ensures StartsWith(tool, ToolPrefix) ==> r == tool
    ensures !StartsWith(tool, ToolPrefix) ==> r == ToolPrefix + tool
  {
    if StartsWith(tool, ToolPrefix) then tool else ToolPrefix + tool
  }

  /** Normalising twice is normalising once. */
  lemma NormalizeIdempotent(tool: string)
    ensures NormalizeTool(NormalizeTool(tool)) == NormalizeTool(tool)
  {
  }

  /** `tool.replace('Tool:', '')`: every non-overlapping `Tool:` removed, left to right. */
  function ToolName(tool: string): string
  {
    ReplaceAll(tool, ToolPrefix, "")
  }

  /** The tool name does not depend on whether the prefix was added by the normalisation. */
  lemma ToolNameOfNormalized(tool: string)
    ensures ToolName(NormalizeTool(tool)) == ToolName(tool)
  {
    if !StartsWith(tool, ToolPrefix) {
      var t := ToolPrefix + tool;
      assert t[..|ToolPrefix|] == ToolPrefix;
      assert t[|ToolPrefix|..] == tool;
    }
  }

  /** A name without the prefix is its own tool name, so `Tool:X` and `X` name the same resources. */
  lemma ToolNameOfPlainName(name: string)
    requires !Contains(name, ToolPrefix)
    ensures ToolName(NormalizeTool(name)) == name
  {
    ToolNameOfNormalized(name);
    ReplaceAbsent(name, ToolPrefix, "");
  }

  function ResourceTable(tool: string): string { ToolName(tool) + "Resources" }
  function TemplateName(tool: string): string { ToolName(tool) + "Resource" }

  /**
   * The repair of resource JSON that failed to parse: when it has more `{` than `}`, the missing
   * `}` are appended; otherwise no repair is attempted.
   */
  function RepairBraces(s: string): (r: Option<string>)
    ensures r.Some? <==> CountChar(s, '{') > CountChar(s, '}')
    ensures r.Some? ==> StartsWith(r.value, s) && !Blank(r.value[|s|..])
    ensures r.Some? ==> CountChar(r.value, '{') == CountChar(r.value, '}')
    ensures r.Some? ==> |r.value| == |s| + CountChar(s, '{') - CountChar(s, '}')
    ensures r.Some? ==> forall k :: |s| <= k < |r.value| ==> r.value[k] == '}'
  {
    var opening := CountChar(s, '{');
    var closing := CountChar(s, '}');
    if opening > closing then
      var fixed := s + Repeat('}', opening - closing);
      CountCharAppend(s, Repeat('}', opening - closing), '{');
      CountCharAppend(s, Repeat('}', opening - closing), '}');
      CountRepeat('}', '{', opening - closing);
      CountRepeat('}', '}', opening - closing);
      assert fixed[..|s|] == s;
      assert fixed[|s|..] == Repeat('}', opening - closing);
      assert !IsSpace(fixed[|s|]);
      Some(fixed)
    else None
  }

  /** The outcome of reading the resource data: the decoded value, or the error that returns the text received. */
  datatype DataResult = Decoded(data: Json) | Undecodable(received: string)

  /**
   * The resource data as read from `text`; `parse` stands for `json.loads`, None when it raises.
   * The repaired text is parsed only when the original fails, and is used when it parses.
   */
  function ReadResourceData(text: string, parse: string -> Option<Json>): (r: DataResult)
    ensures r.Undecodable? ==> r.received == text
    ensures parse(text).Some? ==> r == Decoded(parse(text).value)
    ensures r.Decoded? && parse(text).None? ==> RepairBraces(text).Some? && parse(RepairBraces(text).value) == Some(r.data)
    ensures parse(text).None? && RepairBraces(text).Some? && parse(RepairBraces(text).value).Some? ==>
      r == Decoded(parse(RepairBraces(text).value).value)
  {
    if parse(text).Some? then Decoded(parse(text).value)
    else
      match RepairBraces(text)
      case None => Undecodable(text)
      case Some(fixed) =>
        if parse(fixed).Some? then Decoded(parse(fixed).value) else Undecodable(text)
  }

  /** A region is used only when it is given and not empty. */
  predicate HasRegion(region: Option<string>) {
    region.Some? && region.value != ""
  }

  /** The template parameters: tool and country, the region when given, then the resource data merged over them. */
  function TemplateParams(tool: string, country: string, region: Option<string>, data: Dict<Json>): Dict<Json>
  {
    Update(BaseParams(tool, country, region), data)
  }

  /** Building `template_params` in place: the dict literal, the optional region, then `update`. */
  method BuildTemplateParams(tool: string, country: string, region: Option<string>, data: Dict<Json>)
    returns (params: Dict<Json>)
    ensures params == TemplateParams(tool, country, region, data)
  {
    params := [("tool", JStr(tool)), ("country", JStr(country))];
    if region.Some? && region.value != "" {
      params := Put(params, "region", JStr(region.value));
    }
    params := Update(params, data);
  }

  /** The parameters before the resource data is merged: `tool`, `country`, and `region` when given. */
  function BaseParams(tool: string, country: string, region: Option<string>): (p: Dict<Json>)
    ensures |p| >= 2 && Keys(p)[..2] == ["tool", "country"]
    ensures Get(p, "tool") == Some(JStr(tool)) && Get(p, "country") == Some(JStr(country))
    ensures "region" in Keys(p) <==> HasRegion(region)
    ensures HasRegion(region) ==> Get(p, "region") == Some(JStr(region.value))
    ensures forall k :: k in Keys(p) ==> k in ["tool", "country", "region"]
  {
    var base: Dict<Json> := [("tool", JStr(tool)), ("country", JStr(country))];
    assert Keys(base) == ["tool", "country"];
    assert IndexOf(base, "tool") == 0 && IndexOf(base, "country") == 1;
    assert Get(base, "tool") == Some(JStr(tool)) && Get(base, "country") == Some(JStr(country));
    if HasRegion(region) then
      assert "region" !in Keys(base);
      var p := Put(base, "region", JStr(region.value));
      assert Keys(p) == ["tool", "country", "region"];
      assert Get(p, "region") == Some(JStr(region.value));
      p
    else base
  }

  /**
   * The parameters start with `tool` and `country`; the resource data wins over them; `region` is
   * present when given or when the data has it; nothing else is present.
   */
  lemma {:induction false} TemplateParamsSpec(tool: string, country: string, region: Option<string>, data: Dict<Json>)
    ensures var p := TemplateParams(tool, country, region, data);
      && |p| >= 2 && Keys(p)[..2] == ["tool", "country"]
      && (forall k :: k in Keys(data) ==> Get(p, k) == Get(data, k))
      && (Get(p, "tool") == if "tool" in Keys(data) then Get(data, "tool") else Some(JStr(tool)))
      && (Get(p, "country") == if "country" in Keys(data) then Get(data, "country") else Some(JStr(country)))
      && (Get(p, "region") == if "region" in Keys(data) then Get(data, "region")
                              else if HasRegion(region) then Some(JStr(region.value)) else None)
      && ("region" in Keys(p) <==> HasRegion(region) || "region" in Keys(data))
      && (forall k :: k in Keys(p) ==> k in Keys(data) || k in ["tool", "country", "region"])
  {
    TemplateParamsOrder(tool, country, region, data);
    TemplateParamsValues(tool, country, region, data);
    TemplateParamsKeys(tool, country, region, data);
  }

  lemma TemplateParamsOrder(tool: string, country: string, region: Option<string>, data: Dict<Json>)
    ensures var p := TemplateParams(tool, country, region, data);
      |p| >= 2 && Keys(p)[..2] == ["tool", "country"]
  {
    var b := BaseParams(tool, country, region);
    var ks := Keys(b);
    var extra := Outside(Keys(data), ks);
    assert Keys(Update(b, data)) == ks + extra;
    PrefixOfConcat(ks, extra, 2);
  }

  lemma TemplateParamsValues(tool: string, country: string, region: Option<string>, data: Dict<Json>)
    ensures var p := TemplateParams(tool, country, region, data);
      && (forall k :: k in Keys(data) ==> Get(p, k) == Get(data, k))
      && (Get(p, "tool") == if "tool" in Keys(data) then Get(data, "tool") else Some(JStr(tool)))
      && (Get(p, "country") == if "country" in Keys(data) then Get(data, "country") else Some(JStr(country)))
      && (Get(p, "region") == if "region" in Keys(data) then Get(data, "region")
                              else if HasRegion(region) then Some(JStr(region.value)) else None)
  {
    var b := BaseParams(tool, country, region);
    assert Get(Update(b, data), "region") == if "region" in Keys(data) then Get(data, "region") else Get(b, "region");
    assert Get(Update(b, data), "tool") == if "tool" in Keys(data) then Get(data, "tool") else Get(b, "tool");
    assert Get(Update(b, data), "country") == if "country" in Keys(data) then Get(data, "country") else Get(b, "country");
  }

  lemma TemplateParamsKeys(tool: string, country: string, region: Option<string>, data: Dict<Json>)
    ensures var p := TemplateParams(tool, country, region, data);
      && ("region" in Keys(p) <==> HasRegion(region) || "region" in Keys(data))
      && (forall k :: k in Keys(p) ==> k in Keys(data) || k in ["tool", "country", "region"])
  {
    var b := BaseParams(tool, country, region);
    var p := Update(b, data);
    forall k | k in Keys(p) ensures k in Keys(data) || k in ["tool", "country", "region"] {
      assert Get(p, k).Some?;
    }
    assert Get(p, "region") == if "region" in Keys(data) then Get(data, "region") else Get(b, "region");
  }

  /** A parameter not among the fields of the resource table. */
  function Unknown(schema: Dict<Json>, k: string): seq<string>
  {
    if k in Keys(schema) then [] else [k]
  }

  /** The parameter names the resource table does not have, in parameter order. */
  function InvalidFields(params: Dict<Json>, schema: Dict<Json>): seq<string>
  {
    FlatMap(k => Unknown(schema, k), Keys(params))
  }

  /** The `invalid_fields` loop over the parameter names. */
  method CollectInvalidFields(params: Dict<Json>, schema: Dict<Json>) returns (invalid: seq<string>)
    ensures invalid == InvalidFields(params, schema)
  {
    var names := Keys(params);
    invalid := [];
    var i := 0;
    while i < |names|
      invariant 0 <= i <= |names|
      invariant invalid == FlatMap(k => Unknown(schema, k), names[..i])
    {
      FlatMapSnoc(k => Unknown(schema, k), names, i);
      if names[i] !in Keys(schema) {
        invalid := invalid + [names[i]];
      }
      i := i + 1;
    }
    assert names[..i] == names;
  }

  /** A name is reported exactly when it is a parameter the table does not have. */
  lemma {:induction false} InvalidFieldsExact(params: Dict<Json>, schema: Dict<Json>, k: string)
    ensures k in InvalidFields(params, schema) <==> k in Keys(params) && k !in Keys(schema)
  {
    var f := n => Unknown(schema, n);
    var names := Keys(params);
    assert InvalidFields(params, schema) == FlatMap(f, names);
    if k in FlatMap(f, names) {
      FlatMapMember(f, names, k);
      var n :| n in names && k in f(n);
    }
    if k in names && k !in Keys(schema) {
      var i :| 0 <= i < |names| && names[i] == k;
      assert k in f(names[i]);
      FlatMapIn(f, names, i, k);
    }
  }

  /** One template line, `|key=value`; `showContainer` prints a list or dict value as Python does. */
  function ParamLine(entry: (string, Json), showContainer: Json -> string): string
  {
    "|" + entry.0 + "=" + PyStr(entry.1, showContainer)
  }

  function ParamLines(params: Dict<Json>, showContainer: Json -> string): (lines: seq<string>)
    ensures |lines| == |params|
    ensures forall i :: 0 <= i < |params| ==> lines[i] == ParamLine(params[i], showContainer)
  {
    seq(|params|, i requires 0 <= i < |params| => ParamLine(params[i], showContainer))
  }

  /** The wikitext as the source joins it: the opening line, one line per parameter, and the closing line. */
  function Wikitext(template: string, params: Dict<Json>, showContainer: Json -> string): string
  {
    Join("\n", ["{{" + template] + ParamLines(params, showContainer) + ["}}\n"])
  }

  /** `lines[0] + "\n" + lines[1] + "\n" + ...` with a newline after each line. */
  function Terminated(lines: seq<string>): string
  {
    if |lines| == 0 then "" else lines[0] + "\n" + Terminated(lines[1..])
  }

  lemma {:induction false} JoinFramed(first: string, middle: seq<string>, last: string)
    ensures Join("\n", [first] + middle + [last]) == first + "\n" + Terminated(middle) + last
    decreases |middle|
  {
    var all := [first] + middle + [last];
    assert all[1..] == middle + [last];
    if |middle| == 0 {
      assert Join("\n", [last]) == last;
    } else {
      JoinFramed(middle[0], middle[1..], last);
      assert middle + [last] == [middle[0]] + middle[1..] + [last];
    }
  }

  /**
   * The wikitext is `{{<template>` and a newline, then `|key=value` and a newline for every
   * parameter in insertion order, then `}}` and a newline.
   */
  lemma WikitextShape(template: string, params: Dict<Json>, showContainer: Json -> string)
    ensures Wikitext(template, params, showContainer)
      == "{{" + template + "\n" + Terminated(ParamLines(params, showContainer)) + "}}\n"
  {
    JoinFramed("{{" + template, ParamLines(params, showContainer), "}}\n");
  }

  /** Building `wikitext_lines` by appending, then joining them with newlines. */
  method BuildWikitext(template: string, params: Dict<Json>, showContainer: Json -> string) returns (wikitext: string)
    ensures wikitext == Wikitext(template, params, showContainer)
  {
    var lines := ["{{" + template];
    var i := 0;
    while i < |params|
      invariant 0 <= i <= |params|
      invariant lines == ["{{" + template] + ParamLines(params, showContainer)[..i]
    {
      lines := lines + [ParamLine(params[i], showContainer)];
      i := i + 1;
    }
    assert ParamLines(params, showContainer)[..i] == ParamLines(params, showContainer);
    lines := lines + ["}}\n"];
    wikitext := Join("\n", lines);
  }

  /** The page the resource is added to: `Resource:<tool name>/<country>`, then `/<region>` when given. */
  function ResourcePage(toolName: string, country: string, region: Option<string>): (r: string)
    ensures StartsWith(r, "Resource:" + toolName + "/" + country)
    ensures HasRegion(region) <==> |r| > |"Resource:" + toolName + "/" + country|
    ensures HasRegion(region) ==> r[|"Resource:" + toolName + "/" + country|..] == "/" + region.value
  {
    var page := "Resource:" + toolName + "/" + country;
    if HasRegion(region) then page + "/" + region.value else page
  }

  /** The conditions of a resource query, each `key='value'`. */
  function WhereClauses(tool: string, country: string, region: Option<string>): seq<string>
  {
    ["tool='" + tool + "'", "country='" + country + "'"] + (if HasRegion(region) then ["region='" + region.value + "'"] else [])
  }

  /** The `where_clauses` list, appended to for a region, then joined with " AND ". */
  method BuildWhereClause(tool: string, country: string, region: Option<string>) returns (clause: string)
    ensures clause == Join(" AND ", WhereClauses(tool, country, region))
  {
    var clauses := ["tool='" + tool + "'", "country='" + country + "'"];
    if region.Some? && region.value != "" {
      clauses := clauses + ["region='" + region.value + "'"];
    }
    assert clauses == WhereClauses(tool, country, region);
    clause := Join(" AND ", clauses);
  }

  /** The where clause spelled out: two conditions, or three with a region. */
  lemma {:induction false} WhereClauseShape(tool: string, country: string, region: Option<string>)
    ensures Join(" AND ", WhereClauses(tool, country, region)) ==
      ("tool='" + tool + "'") + " AND " + ("country='" + country + "'")
      + (if HasRegion(region) then " AND " + ("region='" + region.value + "'") else "")
  {
    var t := "tool='" + tool + "'";
    var c := "country='" + country + "'";
    if HasRegion(region) {
      var r := "region='" + region.value + "'";
      assert WhereClauses(tool, country, region) == [t] + [c, r];
      JoinCons(" AND ", c, [r]);
      assert [c] + [r] == [c, r];
      JoinCons(" AND ", t, [c, r]);
    } else {
      assert WhereClauses(tool, country, region) == [t] + [c];
      JoinCons(" AND ", t, [c]);
    }
  }

  /** The answer for the table's field list: the request failed with an HTTP error or otherwise, or the `cargofields` object. */
  datatype SchemaReply = SchemaHttpError | SchemaFailed | Schema(fields: Dict<Json>)

  /** The answer to the token request and the edit: failed with an HTTP error or otherwise, or whether the wiki reports success. */
  datatype EditReply = EditHttpError | EditFailed | EditAnswer(success: bool)

  /** Every field description is an object with a `type`, so the field-type listing of an error can be built. */
  predicate AllTyped(fields: Dict<Json>) {
    forall i :: 0 <= i < |fields| ==> fields[i].1.JObj? && "type" in Keys(fields[i].1.fields)
  }

  datatype AddOutcome =
    | InvalidJson(received: string)
    | TableNotFound(table: string)
    | InvalidFieldNames(invalid: seq<string>, valid: seq<string>)
    | Added(page: string, pageUrl: string, template: string, content: string)
    | NotAdded(content: string)
    | HttpFailure
    | Failure

  /**
   * `add_resource`. `schema` answers the field-list request for a table; `edit` performs the token
   * request and the edit of a page with a text and a summary.
   */
  function AddResource(tool: string, country: string, text: string, region: Option<string>,
                       parse: string -> Option<Json>, schema: string -> SchemaReply,
                       edit: (string, string, string) -> EditReply, showContainer: Json -> string): (r: AddOutcome)
    ensures r.InvalidJson? <==> ReadResourceData(text, parse).Undecodable?
    ensures r.InvalidJson? ==> r.received == text
  {
    match ReadResourceData(text, parse)
    case Undecodable(received) => InvalidJson(received)
    case Decoded(data) =>
      var canonical := NormalizeTool(tool);
      var table := ResourceTable(canonical);
      var template := TemplateName(canonical);
      match schema(table)
      case SchemaHttpError => HttpFailure
      case SchemaFailed => Failure
      case Schema(fields) =>
        if |fields| == 0 then TableNotFound(table)
        else if !data.JObj? then Failure
        else
          var params := TemplateParams(canonical, country, region, data.fields);
          var invalid := InvalidFields(params, fields);
          if |invalid| > 0 then
            if AllTyped(fields) then InvalidFieldNames(invalid, Keys(fields)) else Failure
          else EditPage(canonical, country, region, params, edit, showContainer)
  }

  /** The edit of the resource page with the template wikitext, once the parameters are known to be valid. */
  function EditPage(canonical: string, country: string, region: Option<string>, params: Dict<Json>,
                    edit: (string, string, string) -> EditReply, showContainer: Json -> string): AddOutcome
  {
    var template := TemplateName(canonical);
    var wikitext := Wikitext(template, params, showContainer);
    var page := ResourcePage(ToolName(canonical), country, region);
    EditOutcome(page, template, wikitext, edit(page, wikitext, "Added new " + ToolName(canonical) + " resource via MCP"))
  }

  /** The result of the page edit: the success dict, the refusal dict, or the failure of the request. */
  function EditOutcome(page: string, template: string, wikitext: string, reply: EditReply): AddOutcome
  {
    match reply
    case EditHttpError => HttpFailure
    case EditFailed => Failure
    case EditAnswer(success) =>
      if success then Added(page, WikiBaseUrl + "/wiki/" + ReplaceAll(page, ":", "/"), template, Strip(wikitext))
      else NotAdded(Strip(wikitext))
  }

  /** Nothing is written to the wiki unless the data decodes and every parameter is a field of the table. */
  lemma AddedOnlyWhenValid(tool: string, country: string, text: string, region: Option<string>,
                           parse: string -> Option<Json>, schema: string -> SchemaReply,
                           edit: (string, string, string) -> EditReply, showContainer: Json -> string)
    requires AddResource(tool, country, text, region, parse, schema, edit, showContainer).Added?
    ensures ReadResourceData(text, parse).Decoded? && ReadResourceData(text, parse).data.JObj?
    ensures var t := NormalizeTool(tool);
      && schema(ResourceTable(t)).Schema?
      && forall k :: k in Keys(TemplateParams(t, country, region, ReadResourceData(text, parse).data.fields)) ==>
           k in Keys(schema(ResourceTable(t)).fields)
  {
    var t := NormalizeTool(tool);
    var params := TemplateParams(t, country, region, ReadResourceData(text, parse).data.fields);
    var fields := schema(ResourceTable(t)).fields;
    forall k | k in Keys(params) ensures k in Keys(fields) {
      InvalidFieldsExact(params, fields, k);
    }
  }

  /**
   * When the data decodes to an object and every parameter is a field of a non-empty table, the page
   * `Resource:<tool name>/<country>[/<region>]` is edited with the template wikitext, and the outcome
   * is the edit's: the page, its URL, the template and the stripped wikitext on success, the stripped
   * wikitext on refusal, and the HTTP or generic failure when the request fails.
   */
  lemma {:induction false} AddedWhenValid(tool: string, country: string, text: string, region: Option<string>,
                                          parse: string -> Option<Json>, schema: string -> SchemaReply,
                                          edit: (string, string, string) -> EditReply, showContainer: Json -> string)
    requires ReadResourceData(text, parse).Decoded? && ReadResourceData(text, parse).data.JObj?
    requires var t := NormalizeTool(tool);
      && schema(ResourceTable(t)).Schema? && |schema(ResourceTable(t)).fields| > 0
      && forall k :: k in Keys(TemplateParams(t, country, region, ReadResourceData(text, parse).data.fields)) ==>
           k in Keys(schema(ResourceTable(t)).fields)
    ensures var t := NormalizeTool(tool);
      var params := TemplateParams(t, country, region, ReadResourceData(text, parse).data.fields);
      var page := ResourcePage(ToolName(t), country, region);
      var wikitext := Wikitext(TemplateName(t), params, showContainer);
      var r := AddResource(tool, country, text, region, parse, schema, edit, showContainer);
      match edit(page, wikitext, "Added new " + ToolName(t) + " resource via MCP")
      case EditAnswer(success) =>
        r == if success then Added(page, WikiBaseUrl + "/wiki/" + ReplaceAll(page, ":", "/"), TemplateName(t), Strip(wikitext))
             else NotAdded(Strip(wikitext))
      case EditHttpError => r == HttpFailure
      case EditFailed => r == Failure
  {
    var t := NormalizeTool(tool);
    var fields := schema(ResourceTable(t)).fields;
    var params := TemplateParams(t, country, region, ReadResourceData(text, parse).data.fields);
    var invalid := InvalidFields(params, fields);
    if |invalid| > 0 {
      InvalidFieldsExact(params, fields, invalid[0]);
    }
    ValidFieldsOutcome(tool, country, text, region, parse, schema, edit, showContainer,
                       ReadResourceData(text, parse).data.fields, fields);
  }

  /** The outcome once no parameter is invalid: the edit's. */
  lemma {:induction false} ValidFieldsOutcome(tool: string, country: string, text: string, region: Option<string>,
                                              parse: string -> Option<Json>, schema: string -> SchemaReply,
                                              edit: (string, string, string) -> EditReply, showContainer: Json -> string,
                                              data: Dict<Json>, fields: Dict<Json>)
    requires ReadResourceData(text, parse) == Decoded(JObj(data))
    requires schema(ResourceTable(NormalizeTool(tool))) == Schema(fields) && |fields| > 0
    requires InvalidFields(TemplateParams(NormalizeTool(tool), country, region, data), fields) == []
    ensures AddResource(tool, country, text, region, parse, schema, edit, showContainer)
      == EditPage(NormalizeTool(tool), country, region, TemplateParams(NormalizeTool(tool), country, region, data), edit, showContainer)
  {
  }

  /** A parameter the table does not have stops the operation before the page is edited. */
  lemma {:induction false} InvalidFieldStopsEdit(tool: string, country: string, text: string, region: Option<string>,
                              parse: string -> Option<Json>, schema: string -> SchemaReply,
                              edit: (string, string, string) -> EditReply, edit': (string, string, string) -> EditReply,
                              showContainer: Json -> string, k: string)
    requires ReadResourceData(text, parse).Decoded? && ReadResourceData(text, parse).data.JObj?
    requires var t := NormalizeTool(tool);
      && schema(ResourceTable(t)).Schema? && |schema(ResourceTable(t)).fields| > 0
      && k in Keys(TemplateParams(t, country, region, ReadResourceData(text, parse).data.fields))
      && k !in Keys(schema(ResourceTable(t)).fields)
    ensures var r := AddResource(tool, country, text, region, parse, schema, edit, showContainer);
      && (r.InvalidFieldNames? || r.Failure?)
      && (r.InvalidFieldNames? ==> k in r.invalid)
      && r == AddResource(tool, country, text, region, parse, schema, edit', showContainer)
  {
    var t := NormalizeTool(tool);
    var fields := schema(ResourceTable(t)).fields;
    var params := TemplateParams(t, country, region, ReadResourceData(text, parse).data.fields);
    InvalidFieldsExact(params, fields, k);
    InvalidFieldsOutcome(tool, country, text, region, parse, schema, edit, showContainer);
    InvalidFieldsOutcome(tool, country, text, region, parse, schema, edit', showContainer);
  }

  /** The outcome once some parameter is invalid, whatever the page edit would do. */
  lemma {:induction false} InvalidFieldsOutcome(tool: string, country: string, text: string, region: Option<string>,
                              parse: string -> Option<Json>, schema: string -> SchemaReply,
                              edit: (string, string, string) -> EditReply, showContainer: Json -> string)
    requires ReadResourceData(text, parse).Decoded? && ReadResourceData(text, parse).data.JObj?
    requires var t := NormalizeTool(tool);
      && schema(ResourceTable(t)).Schema? && |schema(ResourceTable(t)).fields| > 0
      && |InvalidFields(TemplateParams(t, country, region, ReadResourceData(text, parse).data.fields),
                        schema(ResourceTable(t)).fields)| > 0
    ensures var t := NormalizeTool(tool);
      var fields := schema(ResourceTable(t)).fields;
      var invalid := InvalidFields(TemplateParams(t, country, region, ReadResourceData(text, parse).data.fields), fields);
      AddResource(tool, country, text, region, parse, schema, edit, showContainer)
        == if AllTyped(fields) then InvalidFieldNames(invalid, Keys(fields)) else Failure
  {
  }
}
