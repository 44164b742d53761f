/**
 JSON values, and the printer and parser the code calls. The printer and the
 parser are parameters of everything below; `Valid` is what is used of them.
 Numbers are integers here.
 */
module Json {
  import opened Prelude

  datatype Json =
    | JNull
    | JBool(b: bool)
    | JNum(n: int)
    | JStr(s: string)
    | JArr(items: seq<Json>)
    | JObj(fields: map<string, Json>)

  datatype Codec = Codec(dumps: Json -> string, loads: string -> Option<Json>) {

    /**
     Parsing undoes printing; the printer escapes everything but printable
     ASCII, so its text is one line; and an object's text starts with a brace.
     */
    ghost predicate Valid() {
      && (forall j :: loads(dumps(j)) == Some(j))
      && (forall j :: Printable(dumps(j)))
      && (forall fields :: |dumps(JObj(fields))| > 0 && dumps(JObj(fields))[0] == '{')
    }

    /** The text of an object ends with its closing brace: no shorter part of it parses. */
    ghost predicate Delimited() {
      forall fields, k | 0 <= k < |dumps(JObj(fields))| :: loads(dumps(JObj(fields))[..k]) == None
    }
  }

  ghost predicate Printable(s: string) {
    forall i | 0 <= i < |s| :: ' ' <= s[i] <= '~'
  }

  ghost predicate OneLine(s: string) {
    forall i | 0 <= i < |s| :: s[i] != '\n' && s[i] != '\r'
  }
}
