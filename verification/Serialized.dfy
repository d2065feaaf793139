/** The bytes a snapshot is measured by: the JSON text of the model context, encoded as
    UTF-8, written out and counted. */
module Serialized {
  import opened Decimal
  import opened Excerpt
  import opened Snapshot

  type Octets = seq<int>

  function Hex(d: int): int {
    if d < 10 then 0x30 + d else 0x57 + d
  }

  /** One code point inside a JSON string (section 7 of RFC 8259), in UTF-8 (section 3 of
      RFC 3629); a lone surrogate can only be escaped. */
  function PointText(p: Point): Octets {
    if p == 0x22 || p == 0x5C then [0x5C, p]
    else if p == 0x08 then [0x5C, 0x62]
    else if p == 0x09 then [0x5C, 0x74]
    else if p == 0x0A then [0x5C, 0x6E]
    else if p == 0x0C then [0x5C, 0x66]
    else if p == 0x0D then [0x5C, 0x72]
    else if p < 0x20 || (0xD800 <= p && p < 0xE000) then
      [0x5C, 0x75, Hex(p / 0x1000), Hex(p / 0x100 % 0x10), Hex(p / 0x10 % 0x10), Hex(p % 0x10)]
    else if p < 0x80 then [p]
    else if p < 0x800 then [0xC0 + p / 0x40, 0x80 + p % 0x40]
    else if p < 0x10000 then [0xE0 + p / 0x1000, 0x80 + p / 0x40 % 0x40, 0x80 + p % 0x40]
    else [0xF0 + p / 0x40000, 0x80 + p / 0x1000 % 0x40, 0x80 + p / 0x40 % 0x40, 0x80 + p % 0x40]
  }

  function TextOf(text: seq<Point>): Octets {
    if text == [] then [] else TextOf(text[..|text| - 1]) + PointText(text[|text| - 1])
  }

  function Codes(s: string): Octets {
    seq(|s|, i requires 0 <= i < |s| => s[i] as int)
  }

  function ItemText(m: Message): Octets {
    Codes("{\"id\":\"") + TextOf(m.id) + Codes("\",\"content\":\"") + TextOf(m.content) + Codes("\",\"ts\":") + Codes(Show(m.ts)) + Codes("}")
  }

  /** The messages of one role, one after another, separated by commas. */
  function ListText(messages: seq<Message>, role: Role): Octets {
    if messages == [] then []
    else
      var rest, last := ListText(messages[..|messages| - 1], role), messages[|messages| - 1];
      if last.role != role then rest
      else rest + (if CountRole(messages[..|messages| - 1], role) == 0 then [] else Codes(",")) + ItemText(last)
  }

  function JsonText(messages: seq<Message>): Octets {
    Codes("{\"bridge_context\":[") + ListText(messages, User) + Codes("],\"assistant_context\":[") + ListText(messages, Assistant) + Codes("]}")
  }

  lemma {:induction false} TextIsMeasured(text: seq<Point>)
    ensures |TextOf(text)| == Bytes(text)
  {
    if text != [] {
      TextIsMeasured(text[..|text| - 1]);
    }
  }

  lemma ItemIsMeasured(m: Message)
    ensures |ItemText(m)| == ItemOverhead(m) + Bytes(m.content)
  {
    TextIsMeasured(m.id);
    TextIsMeasured(m.content);
    hide Bytes, Show, TextOf;
  }

  /** The bytes of one role's items, without the commas between them. */
  function RoleBytes(messages: seq<Message>, role: Role): nat {
    if messages == [] then 0
    else
      var last := messages[|messages| - 1];
      RoleBytes(messages[..|messages| - 1], role) + (if last.role == role then ItemOverhead(last) + Bytes(last.content) else 0)
  }

  lemma {:induction false} ListIsMeasured(messages: seq<Message>, role: Role)
    ensures |ListText(messages, role)| == RoleBytes(messages, role) + Commas(CountRole(messages, role))
  {
    hide ItemText, ItemOverhead, Bytes;
    if messages != [] {
      ListIsMeasured(messages[..|messages| - 1], role);
      ItemIsMeasured(messages[|messages| - 1]);
      assert |Codes(",")| == 1;
    }
  }

  lemma {:induction false} RolesAddUp(messages: seq<Message>)
    requires ContextRoles(messages)
    ensures ItemsBytes(messages) == RoleBytes(messages, User) + RoleBytes(messages, Assistant)
  {
    hide ItemOverhead, Bytes;
    if messages != [] {
      RolesAddUp(messages[..|messages| - 1]);
    }
  }

  /** The size the limit is compared with is the number of bytes written. */
  lemma SizeIsMeasured(messages: seq<Message>)
    requires ContextRoles(messages)
    ensures ContextBytes(messages) == |JsonText(messages)|
    ensures WithinLimit(messages) <==> |JsonText(messages)| <= 16_384
  {
    ListIsMeasured(messages, User);
    ListIsMeasured(messages, Assistant);
    RolesAddUp(messages);
    hide ListText, RoleBytes, ItemsBytes, CountRole;
  }
}
