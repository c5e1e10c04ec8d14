/** TemplateRenderer: renders a named template or an inline template string
    against a context and, for structured templates, parses the output as JSON.
    The Jinja2 environment and `json.loads` are foreign code and are given as
    the fields of an `Engine`. */
module Renderer {
  import opened Values

  /** The collaborators the renderer delegates to. */
  datatype Engine = Engine(
    templates: map<string, string>,                        // the loader's directory: template name -> source
    syntaxError: string -> Option<string>,                  // Some(message) when Jinja2 cannot compile a source
    evaluate: (string, map<string, Value>) -> Result<string>, // rendering a compiled source; Err is a TemplateError
    parseJson: string -> Result<Value>)                     // json.loads; Err is a JSONDecodeError

  /** Templates whose name ends with this suffix are parsed after rendering. */
  const JsonSuffix: string := ".json.j2"

  /** The message prefix of the ValueError raised for unparsable output. */
  const InvalidJsonPrefix: string := "Rendered template is not valid JSON: "

  /** The TypeError of `template.render(**data)` when `data` is not a mapping. */
  const NotAMapping: string := "argument after ** must be a mapping"

  /** The three failures callers distinguish, plus the TypeError of a
      non-mapping context. */
  predicate IsRenderError(e: Exc)
  {
    e.TemplateNotFound? || e.TemplateError? || e.ValueError? || e.TypeError?
  }

  /** Compile `source`, then `template.render(**data)`. */
  function Evaluate(e: Engine, source: string, data: Value): (r: Outcome<string>)
    ensures r.Done? <==> e.syntaxError(source).None? && data.VDict? && e.evaluate(source, data.entries).Ok?
    ensures r.Done? ==> r.value == e.evaluate(source, data.entries).value
    ensures r.Raised? ==> r.exc.TemplateError? || r.exc.TypeError?
  {
    match e.syntaxError(source)
    case Some(message) => Raised(TemplateError(message))
    case None =>
      if !data.VDict? then Raised(TypeError(NotAMapping))
      else
        match e.evaluate(source, data.entries)
        case Ok(text) => Done(text)
        case Err(message) => Raised(TemplateError(message))
  }

  /** `_parse_json`: the parsed value, or a ValueError carrying the decoder's message. */
  function ParseJson(e: Engine, text: string): (r: Outcome<Value>)
    ensures r.Done? <==> e.parseJson(text).Ok?
    ensures r.Done? ==> r.value == e.parseJson(text).value
    ensures r.Raised? ==> r.exc == ValueError(InvalidJsonPrefix + e.parseJson(text).detail)
  {
    match e.parseJson(text)
    case Ok(v) => Done(v)
    case Err(detail) => Raised(ValueError(InvalidJsonPrefix + detail))
  }

  /** `render_from_string(content, data, is_json)`: parse the output iff `isJson`. */
  function RenderFromString(e: Engine, content: string, data: Value, isJson: bool): (r: Outcome<Value>)
    ensures r.Done? ==> Evaluate(e, content, data).Done?
    ensures r.Done? && !isJson ==> r.value == VStr(Evaluate(e, content, data).value)
    ensures r.Done? && isJson ==> e.parseJson(Evaluate(e, content, data).value) == Ok(r.value)
    ensures Evaluate(e, content, data).Raised? ==> r == Raised(Evaluate(e, content, data).exc)
    ensures Evaluate(e, content, data).Done? && (isJson ==> e.parseJson(Evaluate(e, content, data).value).Ok?) ==> r.Done?
    ensures Evaluate(e, content, data).Done? && isJson && e.parseJson(Evaluate(e, content, data).value).Err? ==>
      r == Raised(ValueError(InvalidJsonPrefix + e.parseJson(Evaluate(e, content, data).value).detail))
    ensures r.Raised? ==> IsRenderError(r.exc)
    ensures r.Raised? && r.exc.ValueError? ==> isJson && StartsWith(r.exc.message, InvalidJsonPrefix)
  {
    match Evaluate(e, content, data)
    case Raised(exc) => Raised(exc)
    case Done(text) => if isJson then ParseJson(e, text) else Done(VStr(text))
  }

  /** `render(name, data)`: look the template up, render it, and parse the
      output when the name ends with ".json.j2". A named template behaves
      exactly as its source rendered as a string, with the suffix as the flag. */
  function Render(e: Engine, name: string, data: Value): (r: Outcome<Value>)
    ensures name !in e.templates ==> r == Raised(TemplateNotFound(name))
    ensures name in e.templates ==>
      r == RenderFromString(e, e.templates[name], data, EndsWith(name, JsonSuffix))
    ensures r.Raised? ==> IsRenderError(r.exc)
    ensures r.Raised? && r.exc.ValueError? ==> EndsWith(name, JsonSuffix)
  {
    if name !in e.templates then Raised(TemplateNotFound(name))
    else
      match Evaluate(e, e.templates[name], data)
      case Raised(exc) => Raised(exc)
      case Done(text) =>
        if EndsWith(name, JsonSuffix) then ParseJson(e, text) else Done(VStr(text))
  }

  /** A structured template whose output is valid JSON yields exactly what
      parsing that output directly yields; any other template yields the text. */
  lemma RenderJsonRoundTrip(e: Engine, name: string, data: Value, text: string)
    requires name in e.templates && Evaluate(e, e.templates[name], data) == Done(text)
    ensures EndsWith(name, JsonSuffix) && e.parseJson(text).Ok? ==>
      Render(e, name, data) == Done(e.parseJson(text).value)
    ensures EndsWith(name, JsonSuffix) && e.parseJson(text).Err? ==>
      Render(e, name, data).Raised? && Render(e, name, data).exc.ValueError?
    ensures !EndsWith(name, JsonSuffix) ==> Render(e, name, data) == Done(VStr(text))
  {
  }

  /** A missing template is reported as TemplateNotFound, never as the
      ValueError of bad JSON, even for a structured name; bad JSON is never
      reported as a missing template. */
  lemma RenderErrorsDistinguishable(e: Engine, name: string, data: Value)
    ensures Render(e, name, data) == Raised(TemplateNotFound(name)) <==> name !in e.templates
    ensures Render(e, name, data).Raised? && Render(e, name, data).exc.ValueError? ==>
      name in e.templates && e.parseJson(Evaluate(e, e.templates[name], data).value).Err?
  {
  }

  /** `render_from_string` defaults `is_json` to True. */
  function RenderFromStringDefault(e: Engine, content: string, data: Value): (r: Outcome<Value>)
    ensures r.Done? ==>
      Evaluate(e, content, data).Done? && e.parseJson(Evaluate(e, content, data).value) == Ok(r.value)
  {
    RenderFromString(e, content, data, true)
  }
}
