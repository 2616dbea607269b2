/** The turns and items of a Codex thread, as internal/codex/types.go decodes them. */
module CodexItems {

  /** A raw field: a JSON string, a JSON list of strings, a list of content blocks with the text that
      they show, or any other value. */
  datatype Value =
    | Text(s: string)
    | Listed(parts: seq<string>)
    | Blocks(shown: string, json: string)
    | Other(json: string)

  /** The raw JSON object of an item, field by field. */
  type Raw = map<string, Value>

  datatype Item = Item(id: string, kind: string, raw: Raw)

  /** A turn; an empty status and a zero time are absent. */
  datatype Turn = Turn(id: string, status: string, started: int, completed: int, items: seq<Item>)

  /** A thread; `extra` is whatever else it carries. */
  datatype Thread = Thread(id: string, turns: seq<Turn>, extra: string)

  /** A field that is a string, or the empty string. */
  function TextField(raw: Raw, field: string): string {
    if field in raw && raw[field].Text? then raw[field].s else ""
  }

  function Joined(parts: seq<string>, separator: string): string {
    if parts == [] then ""
    else if |parts| == 1 then parts[0]
    else parts[0] + separator + Joined(parts[1..], separator)
  }

  /** What a user message shows: its content blocks, or the JSON of anything else. */
  function UserContent(raw: Raw): string {
    if "content" !in raw then ""
    else
      match raw["content"]
      case Text(s) => "\"" + s + "\""
      case Listed(parts) => if parts == [] then "" else "[\"" + Joined(parts, "\",\"") + "\"]"
      case Blocks(shown, _) => shown
      case Other(json) => json
  }

  ghost predicate DistinctItems(items: seq<Item>) {
    forall i, j :: 0 <= i < j < |items| ==> items[i].id != items[j].id
  }

  ghost predicate DistinctTurns(turns: seq<Turn>) {
    forall i, j :: 0 <= i < j < |turns| ==> turns[i].id != turns[j].id
  }
}
