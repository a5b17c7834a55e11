/** The literal registries of hook and DCA-callback definitions, kept in
    the order they are written, and lookup by key as `array_key_exists`
    and `$registry[$key]` do it. */
module Registries {
  import opened PhpValues
  import opened MethodDefinitions

  /** One registry entry: the key and its definition. */
  datatype Entry = Entry(key: string, definition: MethodDefinition)

  /** A bare string type for one parameter. */
  function Typed(name: string, typeName: string): Param {
    Param(name, Bare(Some(typeName)))
  }

  /** `array_keys($registry)`. */
  function Keys(entries: seq<Entry>): (keys: seq<string>)
    ensures |keys| == |entries|
    ensures forall i :: 0 <= i < |entries| ==> keys[i] == entries[i].key
  {
    seq(|entries|, i requires 0 <= i < |entries| => entries[i].key)
  }

  /** `array_key_exists($key, $registry) ? $registry[$key] : null`. */
  function Lookup(entries: seq<Entry>, key: string): (r: Option<MethodDefinition>)
    ensures r.None? <==> key !in Keys(entries)
    ensures r.Some? ==> exists i :: 0 <= i < |entries| && entries[i] == Entry(key, r.value)
  {
    if entries == [] then None
    else if entries[0].key == key then Some(entries[0].definition)
    else
      assert Keys(entries) == [entries[0].key] + Keys(entries[1..]);
      var r := Lookup(entries[1..], key);
      assert r.Some? ==> exists i :: 0 <= i < |entries[1..]| && entries[1..][i] == Entry(key, r.value);
      r
  }

  /** The value stored under a key that does not occur earlier is the one
      `$registry[$key]` returns. */
  lemma {:induction false} LookupAt(entries: seq<Entry>, i: nat)
    requires i < |entries|
    requires forall j :: 0 <= j < i ==> entries[j].key != entries[i].key
    ensures Lookup(entries, entries[i].key) == Some(entries[i].definition)
  {
    if i > 0 {
      LookupAt(entries[1..], i - 1);
    }
  }

  /** `MakeHook::getAvailableHooks()`. */
  function Hooks(): seq<Entry> {
    [
      Entry("activateAccount", MethodDefinition(Some("void"), [
          Typed("member", "Contao\\MemberModel"),
          Typed("module", "Contao\\Module")
        ])),
      Entry("activateRecipient", MethodDefinition(Some("void"), [
          Typed("mail", "string"),
          Typed("recipientIds", "array"),
          Typed("channelIds", "array")
        ])),
      Entry("addComment", MethodDefinition(Some("void"), [
          Typed("commentId", "int"),
          Typed("commentData", "array"),
          Typed("comments", "Contao\\Comments")
        ])),
      Entry("addCustomRegexp", MethodDefinition(Some("bool"), [
          Typed("regexp", "string"),
          Typed("input", ""),
          Typed("widget", "Contao\\Widget")
        ])),
      Entry("addLogEntry", MethodDefinition(Some("void"), [
          Typed("message", "string"),
          Typed("func", "string"),
          Typed("action", "string")
        ])),
      Entry("checkCredentials", MethodDefinition(Some("bool"), [
          Typed("username", "string"),
          Typed("credentials", "string"),
          Typed("user", "Contao\\User")
        ])),
      Entry("closeAccount", MethodDefinition(Some("void"), [
          Typed("userId", "int"),
          Typed("mode", "string"),
          Typed("module", "Contao\\Module")
        ])),
      Entry("colorizeLogEntries", MethodDefinition(Some("string"), [Typed("row", "array"), Typed("label", "string")])),
      Entry("compareThemeFiles", MethodDefinition(Some("string"), [
          Typed("xml", "\\DOMDocument"),
          Typed("zip", "Contao\\ZipReader")
        ])),
      Entry("compileArticle", MethodDefinition(Some("void"), [
          Typed("template", "Contao\\FrontendTemplate"),
          Typed("data", "array"),
          Typed("module", "Contao\\Module")
        ])),
      Entry("compileDefinition", MethodDefinition(Some("string"), [
          Typed("row", "array"),
          Typed("writeToFile", "bool"),
          Typed("vars", "array"),
          Typed("parent", "array")
        ])),
      Entry("compileFormFields", MethodDefinition(Some("array"), [
          Typed("fields", "array"),
          Typed("formId", "string"),
          Typed("form", "Contao\\Form")
        ])),
      Entry("createDefinition", MethodDefinition(Some("?array"), [
          Typed("key", "string"),
          Typed("value", "string"),
          Typed("definition", "string"),
          Typed("&dataSet", "array")
        ])),
      Entry("createNewUser", MethodDefinition(Some("void"), [
          Typed("userId", "int"),
          Typed("userData", "array"),
          Typed("module", "Contao\\Module")
        ])),
      Entry("customizeSearch", MethodDefinition(Some("void"), [
          Typed("&pageIds", "array"),
          Typed("keywords", "string"),
          Typed("queryType", "string"),
          Typed("fuzzy", "bool"),
          Typed("module", "Contao\\Module")
        ])),
      Entry("executePostActions", MethodDefinition(Some("void"), [
          Typed("action", "string"),
          Typed("dc", "Contao\\DataContainer")
        ])),
      Entry("executePreActions", MethodDefinition(Some("void"), [Typed("action", "string")])),
      Entry("executeResize", MethodDefinition(Some("?string"), [Typed("image", "Contao\\Image")])),
      Entry("exportTheme", MethodDefinition(Some("void"), [
          Typed("xml", "\\DomDocument"),
          Typed("zipArchive", "Contao\\ZipWriter"),
          Typed("themeId", "int")
        ])),
      Entry("extractThemeFiles", MethodDefinition(Some("void"), [
          Typed("xml", "\\DomDocument"),
          Typed("zipArchive", "Contao\\ZipReader"),
          Typed("themeId", "int"),
          Typed("mapper", "array")
        ])),
      Entry("generateBreadcrumb", MethodDefinition(Some("array"), [Typed("items", "array"), Typed("module", "Contao\\Module")])),
      Entry("generateFrontendUrl", MethodDefinition(Some("string"), [
          Typed("page", "array"),
          Typed("params", "string"),
          Typed("url", "string")
        ])),
      Entry("generatePage", MethodDefinition(Some("void"), [
          Typed("pageModel", "Contao\\PageModel"),
          Typed("layout", "Contao\\LayoutModel"),
          Typed("pageRegular", "Contao\\PageRegular")
        ])),
      Entry("generateXmlFiles", MethodDefinition(Some("void"), [])),
      Entry("getAllEvents", MethodDefinition(Some("array"), [
          Typed("events", "array"),
          Typed("calendars", "array"),
          Typed("timeStart", "int"),
          Typed("timeEnd", "int"),
          Typed("module", "Contao\\Module")
        ])),
      Entry("getArticle", MethodDefinition(Some("void"), [Typed("article", "Contao\\ArticleModel")])),
      Entry("getArticles", MethodDefinition(Some("?string"), [Typed("pageId", "int"), Typed("column", "string")])),
      Entry("getAttributesFromDca", MethodDefinition(Some("array"), [
          Typed("attributes", "array"),
          Param("dc", WithDefault(Some("Contao\\DataContainer"), Some("null")))
        ])),
      Entry("getCombinedFile", MethodDefinition(Some("string"), [
          Typed("content", "string"),
          Typed("key", "string"),
          Typed("mode", "string"),
          Typed("file", "array")
        ])),
      Entry("getContentElement", MethodDefinition(Some("string"), [
          Typed("contentModel", "Contao\\ContentModel"),
          Typed("buffer", "string"),
          Typed("contentElement", "Contao\\ContentElement")
        ])),
      Entry("getCountries", MethodDefinition(Some("void"), [
          Typed("&translatedCountries", "array"),
          Typed("allCountries", "array")
        ])),
      Entry("getForm", MethodDefinition(Some("string"), [
          Typed("form", "Contao\\FormModel"),
          Typed("buffer", "string")
        ])),
      Entry("getFrontendModule", MethodDefinition(Some("string"), [
          Typed("moduleModel", "Contao\\ModuleModel"),
          Typed("buffer", "string"),
          Typed("module", "Contao\\Module")
        ])),
      Entry("getImage", MethodDefinition(Some("?string"), [
          Typed("originalPath", "string"),
          Typed("width", "int"),
          Typed("height", "int"),
          Typed("mode", "string"),
          Typed("cacheName", "string"),
          Typed("file", "Contao\\File"),
          Typed("targetPath", "string"),
          Typed("imageObject", "Contao\\Image")
        ])),
      Entry("getLanguages", MethodDefinition(Some("void"), [
          Typed("&compiledLanguages", "array"),
          Typed("languages", "array"),
          Typed("langsNative", "array"),
          Typed("installedOnly", "bool")
        ])),
      Entry("getPageIdFromUrl", MethodDefinition(Some("array"), [Typed("fragments", "array")])),
      Entry("getPageLayout", MethodDefinition(Some("void"), [
          Typed("pageModel", "Contao\\PageModel"),
          Typed("layout", "Contao\\LayoutModel"),
          Typed("pageRegular", "Contao\\PageRegular")
        ])),
      Entry("getPageStatusIcon", MethodDefinition(Some("string"), [Typed("page", "object"), Typed("image", "string")]))
    ]
  }

  /** `MakeDcaCallback::getTargets()`. */
  function Targets(): seq<Entry> {
    [
      Entry("config.onload", MethodDefinition(Some("void"), [Typed("dataContainer", "\\Contao\\DataContainer")])),
      Entry("config.oncreate", MethodDefinition(Some("void"), [
          Typed("table", "string"),
          Typed("insertId", "int"),
          Typed("fields", "array"),
          Typed("dataContainer", "\\Contao\\DataContainer")
        ])),
      Entry("config.onsubmit", MethodDefinition(Some("void"), [])),
      Entry("config.ondelete", MethodDefinition(Some("void"), [
          Typed("dataContainer", "\\Contao\\DataContainer"),
          Typed("id", "int")
        ])),
      Entry("config.oncut", MethodDefinition(Some("void"), [Typed("dataContainer", "\\Contao\\DataContainer")])),
      Entry("config.oncopy", MethodDefinition(Some("void"), [
          Typed("id", "int"),
          Typed("dataContainer", "\\Contao\\DataContainer")
        ])),
      Entry("config.oncreate_version", MethodDefinition(Some("void"), [
          Typed("table", "string"),
          Typed("pid", "int"),
          Typed("versionNumber", "int"),
          Typed("recordData", "array")
        ])),
      Entry("config.onrestore_version", MethodDefinition(Some("void"), [
          Typed("table", "string"),
          Typed("pid", "int"),
          Typed("versionNumber", "int"),
          Typed("recordData", "array")
        ])),
      Entry("config.onundo", MethodDefinition(Some("void"), [
          Typed("table", "string"),
          Typed("recordData", "array"),
          Typed("dataContainer", "\\Contao\\DataContainer")
        ])),
      Entry("config.oninvalidate_cache_tags", MethodDefinition(Some("array"), [
          Typed("dataContainer", "\\Contao\\DataContainer"),
          Typed("tags", "array")
        ])),
      Entry("config.onshow", MethodDefinition(Some("array"), [
          Typed("modalData", "array"),
          Typed("recordData", "array"),
          Typed("dataContainer", "\\Contao\\DataContainer")
        ])),
      Entry("list.sorting.paste_button", MethodDefinition(Some("string"), [
          Typed("dataContainer", "\\Contao\\DataContainer"),
          Typed("recordData", "array"),
          Typed("table", "string"),
          Typed("isCircularReference", "bool"),
          Typed("clipboardData", "array"),
          Typed("children", "array"),
          Typed("previousLabel", "string"),
          Typed("nextLabel", "string")
        ])),
      Entry("list.sorting.child_record", MethodDefinition(Some("string"), [Typed("recordData", "array")])),
      Entry("list.sorting.header", MethodDefinition(Some("array"), [
          Typed("currentHeaderLabels", "array"),
          Typed("dataContainer", "\\Contao\\DataContainer")
        ])),
      Entry("list.sorting.panel_callback.subpanel", MethodDefinition(Some("string"), [Typed("dataContainer", "\\Contao\\DataContainer")])),
      Entry("list.label.group", MethodDefinition(Some("string"), [
          Typed("group", "string"),
          Typed("mode", "string"),
          Typed("field", "string"),
          Typed("recordData", "array"),
          Typed("dataContainer", "\\Contao\\DataContainer")
        ])),
      Entry("list.label.label", MethodDefinition(Some("array"), [
          Typed("recordData", "array"),
          Typed("currentLabel", "string"),
          Typed("dataContainer", "\\Contao\\DataContainer")
        ])),
      Entry("list.global_operations.operation.button", MethodDefinition(Some("string"), [
          Typed("buttonHref", "?string"),
          Typed("label", "string"),
          Typed("title", "string"),
          Typed("className", "string"),
          Typed("htmlAttributes", "string"),
          Typed("table", "string"),
          Typed("rootRecordIds", "array")
        ])),
      Entry("list.operations.operation.button", MethodDefinition(Some("string"), [
          Typed("recordData", "array"),
          Typed("buttonHref", "?string"),
          Typed("label", "string"),
          Typed("title", "string"),
          Typed("icon", "?string"),
          Typed("htmlAttributes", "string"),
          Typed("table", "string"),
          Typed("rootRecordIds", "array"),
          Typed("childRecordIds", "array"),
          Typed("isCircularReference", "bool"),
          Typed("previousLabel", "string"),
          Typed("nextLabel", "string"),
          Typed("dataContainer", "\\Contao\\DataContainer")
        ]))
    ]
  }

  /** `createDefinition` is offered with the `?array` return type and its
      last parameter `&dataSet` passed by reference. */
  lemma CreateDefinitionHook()
    ensures Lookup(Hooks(), "createDefinition").Some?
    ensures Lookup(Hooks(), "createDefinition").value.returnType == Some("?array")
    ensures |Lookup(Hooks(), "createDefinition").value.parameters| == 4
    ensures IsByReference(Lookup(Hooks(), "createDefinition").value.parameters[3].name)
  {
    var h := Hooks();
    assert h[12].key == "createDefinition";
    LookupAt(h, 12);
  }

  /** `config.onsubmit` declares no parameters and returns `void`. */
  lemma OnSubmitTarget()
    ensures Lookup(Targets(), "config.onsubmit") == Some(MethodDefinition(Some("void"), []))
  {
    var t := Targets();
    assert t[2].key == "config.onsubmit";
    LookupAt(t, 2);
  }

  /** `generateXmlFiles` takes no arguments and returns `void`. */
  lemma GenerateXmlFilesHook()
    ensures Lookup(Hooks(), "generateXmlFiles") == Some(MethodDefinition(Some("void"), []))
  {
    var h := Hooks();
    assert h[23].key == "generateXmlFiles";
    LookupAt(h, 23);
  }
}
