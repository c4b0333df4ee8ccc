/** The punctuation rules themselves: which dots end a sentence. */
module Punctuation {
  import opened Sentences

  const TERMINATORS: set<char> := {
    '\U{3002}', '\U{FF1F}', '\U{FF01}', '\U{FF61}', '?', '!', '\U{061F}', '\U{06D4}',
    '\U{0964}', '\U{0965}', '\U{104B}', '.'
  }

  const CLOSERS: set<char> := {
    '"', '\'', '\U{201D}', '\U{2019}', '\U{300D}', '\U{300F}', '\U{FF09}', ')',
    '\U{3011}', ']', '\U{300B}', '\U{3009}'
  }

  const DOT_ABBREVIATIONS: set<string> := {
    "dr.", "mr.", "mrs.", "ms.", "prof.", "e.g.", "i.e.", "etc.", "vs.", "st.", "jr.", "sr.", "ph.d."
  }

  /** The character tables of the platform; only one fact about them is used anywhere. */
  datatype Tables = Tables(
    isSpace: char -> bool,
    isDigit: char -> bool,
    isAlpha: char -> bool,
    isAlnum: char -> bool,
    isUpper: char -> bool,
    lower: string -> string)

  /** No sentence terminator is white space. */
  type Alphabet = t: Tables | forall c :: c in TERMINATORS ==> !t.isSpace(c)
    witness Tables(_ => false, _ => false, _ => false, _ => false, _ => false, s => s)

  // ----- one dot ------------------------------------------------------------------------

  /** Where the run of letters and dots that ends just before `start` begins. */
  function TokenStart(t: Alphabet, text: string, start: nat): (r: nat)
    requires start <= |text|
    ensures r <= start
    ensures forall j | r <= j < start :: t.isAlpha(text[j]) || text[j] == '.'
    ensures r > 0 ==> !(t.isAlpha(text[r - 1]) || text[r - 1] == '.')
  {
    if start > 0 && (t.isAlpha(text[start - 1]) || text[start - 1] == '.') then
      TokenStart(t, text, start - 1)
    else
      start
  }

  /** The longest run of letters and dots that ends with the dot at `index`. */
  method DotToken(t: Alphabet, text: string, index: nat) returns (token: string)
    requires index < |text|
    ensures token == text[TokenStart(t, text, index)..index + 1]
  {
    var start: nat := index;
    while start > 0 && (t.isAlpha(text[start - 1]) || text[start - 1] == '.')
      invariant start <= index
      invariant TokenStart(t, text, start) == TokenStart(t, text, index)
    {
      start := start - 1;
    }
    token := text[start..index + 1];
  }

  /** The stretches between dots, empty ones included. */
  function Parts(token: string): (parts: seq<string>)
    ensures |parts| > 0
    ensures forall i | 0 <= i < |parts| :: '.' !in parts[i]
  {
    if token == "" then [""]
    else
      var rest := Parts(token[1..]);
      if token[0] == '.' then [""] + rest else [[token[0]] + rest[0]] + rest[1..]
  }

  function NonEmpty(parts: seq<string>): (r: seq<string>)
    ensures forall i | 0 <= i < |r| :: r[i] != "" && r[i] in parts
  {
    if parts == [] then []
    else if parts[0] == "" then NonEmpty(parts[1..])
    else [parts[0]] + NonEmpty(parts[1..])
  }

  predicate DottedInitialism(t: Alphabet, token: string) {
    var initials := NonEmpty(Parts(token));
    |initials| >= 2 && forall i | 0 <= i < |initials| :: |initials[i]| == 1 && t.isUpper(initials[i][0])
  }

  predicate IsSentenceEnd(t: Alphabet, text: string, index: nat)
    requires index < |text|
  {
    text[index] == '.' ==>
      var between := index > 0 && index + 1 < |text|;
      var token := text[TokenStart(t, text, index)..index + 1];
      && !(between && t.isDigit(text[index - 1]) && t.isDigit(text[index + 1]))
      && !(between && t.isAlnum(text[index - 1]) && t.isAlnum(text[index + 1]))
      && t.lower(token) !in DOT_ABBREVIATIONS
      && !(|token| == 2 && t.isUpper(token[0]))
      && !DottedInitialism(t, token)
  }

  predicate SentenceEndsAt(t: Alphabet, text: string, i: nat)
    requires i < |text|
  {
    text[i] in TERMINATORS && IsSentenceEnd(t, text, i)
  }

  /** The rules the transcript uses. */
  function Standard(t: Alphabet): (p: Rules) {
    Rules(t.isSpace, c => c in TERMINATORS || c in CLOSERS,
          (text: string, i: nat) => i < |text| && SentenceEndsAt(t, text, i))
  }
}
