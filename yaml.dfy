/**
  The parts of src/lib/yaml.ts the wizard's own code decides: the line
  ending `stringifyYaml` writes, and the list defaults of `parseYaml`. The
  YAML library's parsing and rendering are parameters.
 */
module Yaml {
  import opened Wrappers
  import opened Json

  /** The two line endings `stringifyYaml` accepts. */
  datatype Eol = LF | CRLF

  function EolText(eol: Eol): (t: string)
    ensures |t| >= 1 && t[|t| - 1] == '\n'
  {
    match eol
    case LF => "\n"
    case CRLF => "\r\n"
  }

  /** How many '\n' characters `s` holds. */
  function NewlineCount(s: string): nat {
    if s == [] then 0 else (if s[0] == '\n' then 1 else 0) + NewlineCount(s[1..])
  }

  lemma {:induction false} NewlineCountAppend(a: string, b: string)
    ensures NewlineCount(a + b) == NewlineCount(a) + NewlineCount(b)
  {
    if a == [] {
      assert a + b == b;
    } else {
      assert (a + b)[0] == a[0];
      assert (a + b)[1..] == a[1..] + b;
      NewlineCountAppend(a[1..], b);
    }
  }

  /**
    `text.replace(/\n/g, eol)`: every '\n' becomes the line ending, so the
    text grows by one character per line with CRLF, and the number of '\n'
    characters stays the same.
   */
  function ReplaceNewlines(text: string, eol: Eol): (r: string)
    ensures |r| == |text| + (|EolText(eol)| - 1) * NewlineCount(text)
    ensures NewlineCount(r) == NewlineCount(text)
  {
    if text == [] then []
    else
      var head := if text[0] == '\n' then EolText(eol) else [text[0]];
      var rest := ReplaceNewlines(text[1..], eol);
      NewlineCountAppend(head, rest);
      head + rest
  }

  /** With the default line ending the rewrite leaves the text as it is. */
  lemma {:induction false} ReplaceLfIdentity(text: string)
    ensures ReplaceNewlines(text, LF) == text
  {
    if text != [] {
      ReplaceLfIdentity(text[1..]);
      assert [text[0]] + text[1..] == text;
    }
  }

  /** With CRLF, every '\n' of the result comes right after a '\r'. */
  lemma {:induction false} CrlfNewlinesPreceded(text: string)
    ensures forall i :: 0 <= i < |ReplaceNewlines(text, CRLF)| && ReplaceNewlines(text, CRLF)[i] == '\n' ==>
              i > 0 && ReplaceNewlines(text, CRLF)[i - 1] == '\r'
  {
    if text != [] {
      var head := if text[0] == '\n' then "\r\n" else [text[0]];
      var rest := ReplaceNewlines(text[1..], CRLF);
      CrlfNewlinesPreceded(text[1..]);
      assert ReplaceNewlines(text, CRLF) == head + rest;
      forall i | 0 <= i < |head + rest| && (head + rest)[i] == '\n' ensures i > 0 && (head + rest)[i - 1] == '\r' {
        if i >= |head| {
          assert (head + rest)[i] == rest[i - |head|];
          if i - |head| > 0 {
            assert (head + rest)[i - 1] == rest[i - |head| - 1];
          }
        }
      }
    }
  }

  /** Turns each "\r\n" back into "\n". */
  function CollapseCrlf(s: string): string {
    if s == [] then []
    else if |s| >= 2 && s[0] == '\r' && s[1] == '\n' then "\n" + CollapseCrlf(s[2..])
    else [s[0]] + CollapseCrlf(s[1..])
  }

  /**
    The CRLF rewrite loses nothing: collapsing its "\r\n" pairs gives the
    text back, so every other character keeps its place and order.
   */
  lemma {:induction false} CollapseUndoesCrlf(text: string)
    ensures CollapseCrlf(ReplaceNewlines(text, CRLF)) == text
  {
    if text != [] {
      var rest := ReplaceNewlines(text[1..], CRLF);
      CollapseUndoesCrlf(text[1..]);
      if text[0] == '\n' {
        assert ReplaceNewlines(text, CRLF) == "\r\n" + rest;
        assert ("\r\n" + rest)[2..] == rest;
      } else {
        assert ReplaceNewlines(text, CRLF) == [text[0]] + rest;
        CrlfNewlinesPreceded(text[1..]);
        assert rest == [] || rest[0] != '\n';
        assert ([text[0]] + rest)[1..] == rest;
      }
      assert [text[0]] + text[1..] == text;
    }
  }

  /**
    `stringifyYaml(value, {eol})`: the library's rendering with each '\n'
    replaced by `eol`, "\n" unless the caller asks for "\r\n". The
    rendering itself, `yamlText`, belongs to the YAML library.
   */
  function StringifyYaml(value: Json, yamlText: Json -> string, eol: Eol := LF): (r: string)
    ensures eol == LF ==> r == yamlText(value)
    ensures eol == CRLF ==> CollapseCrlf(r) == yamlText(value)
    ensures forall i :: 0 <= i < |r| && r[i] == '\n' && eol == CRLF ==> i > 0 && r[i - 1] == '\r'
  {
    var text := yamlText(value);
    ReplaceLfIdentity(text);
    CollapseUndoesCrlf(text);
    CrlfNewlinesPreceded(text);
    ReplaceNewlines(text, eol)
  }

  /** What `YAML.parseDocument` yields, as far as `parseYaml` reads it; the lists may be missing. */
  datatype YamlDocument = YamlDocument(json: Json, errors: Option<seq<string>>, warnings: Option<seq<string>>)

  /** What `parseYaml` returns. */
  datatype ParsedYaml = ParsedYaml(doc: YamlDocument, json: Json, errors: seq<string>, warnings: seq<string>)

  /** `list ?? []`. */
  function OrEmpty(list: Option<seq<string>>): (r: seq<string>)
    ensures list.Some? ==> r == list.value
    ensures list.None? ==> r == []
  {
    match list
    case Some(l) => l
    case None => []
  }

  /** `parseYaml`: the parsed document and its data, with the error and warning lists defaulting to empty. */
  function ParseYaml(source: string, parseDocument: string -> YamlDocument): (p: ParsedYaml)
    ensures p.doc == parseDocument(source) && p.json == p.doc.json
    ensures p.errors == OrEmpty(p.doc.errors) && p.warnings == OrEmpty(p.doc.warnings)
  {
    var doc := parseDocument(source);
    ParsedYaml(doc, doc.json, OrEmpty(doc.errors), OrEmpty(doc.warnings))
  }
}
