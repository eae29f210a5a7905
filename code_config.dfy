/** lib/workspace/code/code-config.js: where a compute resource's code is
    written in the workspace, decided by the language its runtime names. */
module CodeConfig {
  import opened Wrappers
  import opened Strings
  import opened ChangeCase
  import opened Descriptors
  import ComputeBuilder

  datatype Language = Node | Python {
    /** The language's name as the workspace factories switch on it. */
    function Name(): string {
      match this
      case Node => "node"
      case Python => "python"
    }
  }

  /** The code file of one compute resource. */
  datatype CodeConfiguration = CodeConfiguration(
    name: string, language: Language, code: string, extension: string, filename: string)

  /** The refusal of a runtime the workspace has no language for. */
  function UnsupportedRuntime(runtime: string): Error {
    Error("The runtime \"" + runtime + "\" is not supported by the secretary")
  }

  /** `determineLanguageFromRuntime`: node is checked before python. */
  function LanguageOf(runtime: string): (r: Result<Language>)
    ensures r == Ok(Node) <==> Contains(runtime, "node")
    ensures r == Ok(Python) <==> !Contains(runtime, "node") && Contains(runtime, "python")
    ensures r.Err? ==> r.error == UnsupportedRuntime(runtime)
  {
    if Contains(runtime, "node") then Ok(Node)
    else if Contains(runtime, "python") then Ok(Python)
    else Err(UnsupportedRuntime(runtime))
  }

  /** `getExtensionForLanguage` */
  function Extension(language: Language): string {
    match language
    case Node => ".js"
    case Python => ".py"
  }

  /** The language a file extension stands for: the inverse of `Extension`. */
  function LanguageOfExtension(extension: string): Option<Language> {
    if extension == ".js" then Some(Node)
    else if extension == ".py" then Some(Python)
    else None
  }

  /** `changeCaseByLanguage` */
  function CaseByLanguage(cc: CaseFns, language: Language, text: string): string {
    match language
    case Node => cc.param(text)
    case Python => cc.snake(text)
  }

  /** `createCodeConfiguration(compute)` */
  function CreateCodeConfiguration(cc: CaseFns, c: ComputeResource): (r: Result<CodeConfiguration>)
    ensures r.Ok? <==> LanguageOf(c.runtime).Ok?
    ensures r.Err? ==> r.error == LanguageOf(c.runtime).error
    ensures r.Ok? ==>
      && r.value.language == LanguageOf(c.runtime).value
      && r.value.filename == r.value.name + r.value.extension
      && LanguageOfExtension(r.value.extension) == Some(r.value.language)
      && r.value.code == c.code
    ensures r.Ok? ==>
      r.value.name == (if r.value.language == Node then cc.param(c.id) else cc.snake(c.id))
  {
    match LanguageOf(c.runtime)
    case Err(e) => Err(e)
    case Ok(language) =>
      var extension := Extension(language);
      var name := CaseByLanguage(cc, language, c.id);
      Ok(CodeConfiguration(name, language, c.code, extension, name + extension))
  }

  /** The extension determines the language: `Extension` is one-to-one and
      `LanguageOfExtension` undoes it. */
  lemma ExtensionRoundTrip(language: Language, extension: string)
    ensures LanguageOfExtension(Extension(language)) == Some(language)
    ensures LanguageOfExtension(extension).Some? ==> Extension(LanguageOfExtension(extension).value) == extension
  {
  }

  /** The workspace and the function entry agree: a runtime is given a code
      file exactly when the compute builder gives it a handler, and the
      handler has the form of the code file's language. */
  lemma LanguageAgreesWithHandler(cc: CaseFns, id: string, runtime: string)
    ensures LanguageOf(runtime).Ok? <==> ComputeBuilder.HandlerFor(cc, id, runtime).Ok?
    ensures LanguageOf(runtime) == Ok(Node) ==>
      ComputeBuilder.HandlerFor(cc, id, runtime).value == "handler.on" + cc.pascal(id)
    ensures LanguageOf(runtime) == Ok(Python) ==>
      ComputeBuilder.HandlerFor(cc, id, runtime).value == "handler." + cc.snake(id) + "_endpoint"
  {
  }
}
