// The header of a harmony message: role, optional channel, optional recipient.
module HarmonyHeaders {
  import opened Text

  datatype Header = Header(role: string, channel: string, recipient: string)

  const CHANNEL_TAG := "<|channel|>"
  const CONSTRAIN_TAG := "<|constrain|>"

  // The characters with the White_Space property, as unicode.IsSpace lists them.
  predicate IsSpace(c: char) {
    c in {'\t', '\n', '\U{0B}', '\U{0C}', '\r', ' ', '\U{85}', '\U{A0}', '\U{1680}',
          '\U{2028}', '\U{2029}', '\U{202F}', '\U{205F}', '\U{3000}'}
    || '\U{2000}' <= c <= '\U{200A}'
  }

  // Length of the leading run of characters that are not white space.
  function WordLength(s: string): (n: nat)
    ensures n <= |s|
    ensures forall i :: 0 <= i < n ==> !IsSpace(s[i])
    ensures n < |s| ==> IsSpace(s[n])
  {
    if s == "" || IsSpace(s[0]) then 0 else 1 + WordLength(s[1..])
  }

  function TrimLeft(s: string): string {
    if s != "" && IsSpace(s[0]) then TrimLeft(s[1..]) else s
  }

  function TrimRight(s: string): string {
    if s != "" && IsSpace(s[|s| - 1]) then TrimRight(s[..|s| - 1]) else s
  }

  function TrimSpace(s: string): string {
    TrimRight(TrimLeft(s))
  }

  // Maximal runs of characters that are not white space.
  function Fields(s: string): (words: seq<string>)
    decreases |s|
  {
    if s == "" then []
    else if IsSpace(s[0]) then Fields(s[1..])
    else [s[..WordLength(s)]] + Fields(s[WordLength(s)..])
  }

  // A constrain tag glued to the previous word becomes a word of its own.
  function SpaceConstrain(raw: string): string {
    if Contains(raw, CONSTRAIN_TAG) then
      TrimSpace(Before(raw, CONSTRAIN_TAG) + " " + CONSTRAIN_TAG + After(raw, CONSTRAIN_TAG))
    else raw
  }

  // Channel name, and the header with the channel tag and name cut out.
  function CutChannel(raw: string): (string, string) {
    if Contains(raw, CHANNEL_TAG) then
      var after := After(raw, CHANNEL_TAG);
      var n := WordLength(after);
      (after[..n], TrimSpace(Before(raw, CHANNEL_TAG) + after[n..]))
    else ("", raw)
  }

  const TO := "to="

  // Role and recipient from the remaining words.
  function FromWords(channel: string, words: seq<string>): Header {
    if words == [] then Header("", channel, "")
    else
      var toolCall := HasPrefix(words[0], TO);
      var role := if toolCall then "tool" else words[0];
      var first := if toolCall then words[0][3..] else "";
      var recipient :=
        if first == "" && |words| > 1 && HasPrefix(words[1], TO) then words[1][3..] else first;
      Header(role, channel, recipient)
  }

  function ParseHeader(raw: string): Header {
    var cut := CutChannel(SpaceConstrain(raw));
    FromWords(cut.0, Fields(cut.1))
  }
}
