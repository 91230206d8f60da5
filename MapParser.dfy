/**
 * The token kinds of the Quake map tokenizer, the tokenizer's end-of-line mode and the
 * fixed-arity delimited number-vector reader of the standard map parser.
 */
module MapParser {
  import opened Wrappers

  /** A token kind: one bit of an unsigned mask, so a grammar rule can accept several kinds at once. */
  type TokenType = bv32

  const Integer: TokenType := 1 << 0
  const Decimal: TokenType := 1 << 1
  const String: TokenType := 1 << 2
  const OParenthesis: TokenType := 1 << 3
  const CParenthesis: TokenType := 1 << 4
  const OBrace: TokenType := 1 << 5
  const CBrace: TokenType := 1 << 6
  const OBracket: TokenType := 1 << 7
  const CBracket: TokenType := 1 << 8
  const Comment: TokenType := 1 << 9
  const Eof: TokenType := 1 << 10
  const Eol: TokenType := 1 << 11
  const Number: TokenType := Integer | Decimal

  /** Every token kind the tokenizer emits, in declaration order. */
  const Kinds: seq<TokenType> :=
    [Integer, Decimal, String, OParenthesis, CParenthesis, OBrace, CBrace, OBracket, CBracket,
     Comment, Eof, Eol]

  predicate SingleBit(k: TokenType) {
    k != 0 && k & (k - 1) == 0
  }

  /** Each kind is one bit, and no two kinds share a bit. */
  lemma KindsAreDistinctBits()
    ensures forall i :: 0 <= i < |Kinds| ==> SingleBit(Kinds[i])
    ensures forall i, j :: 0 <= i < j < |Kinds| ==> Kinds[i] & Kinds[j] == 0
  {
  }

  /**
   * A token: its kind, its text and the number its text denotes (the tokenizer's
   * conversion to a floating-point value, meaningful for number tokens only).
   */
  datatype Token = Token(kind: TokenType, text: string, number: real)

  /** What the tokenizer returns once the input is exhausted. */
  const EofToken := Token(Eof, "", 0.0)

  /** What the parser's `expect` accepts: a token whose kind is one of the bits of `mask`. */
  predicate Accepts(mask: TokenType, t: Token) {
    t.kind & mask != 0
  }

  /** The Number mask accepts exactly the integer and the decimal tokens. */
  lemma NumberAcceptsExactlyNumbers(t: Token)
    requires t.kind in Kinds
    ensures Accepts(Number, t) <==> (t.kind == Integer || t.kind == Decimal)
  {
  }

  /** A kind mask built from a single kind accepts that kind and no other. */
  lemma SingleKindMaskIsExact(i: nat, t: Token)
    requires i < |Kinds| && t.kind in Kinds
    ensures Accepts(Kinds[i], t) <==> t.kind == Kinds[i]
  {
    KindsAreDistinctBits();
  }

  /** The tokens the tokenizer hands out from `s`: end-of-line tokens are dropped while `skipEol` is set. */
  function Emitted(s: seq<Token>, skipEol: bool): (r: seq<Token>)
    ensures |r| <= |s|
    ensures skipEol ==> forall i :: 0 <= i < |r| ==> r[i].kind != Eol
  {
    if s == [] then []
    else if skipEol && s[0].kind == Eol then Emitted(s[1..], skipEol)
    else [s[0]] + Emitted(s[1..], skipEol)
  }

  /** With the flag cleared, the tokenizer hands out every token, end-of-line tokens included. */
  lemma {:induction false} EmittedVerbatim(s: seq<Token>)
    ensures Emitted(s, false) == s
  {
    if s != [] {
      EmittedVerbatim(s[1..]);
    }
  }

  /** The k-th token still to come; past the end the tokenizer keeps returning end of file. */
  function At(stream: seq<Token>, k: nat): Token {
    if k < |stream| then stream[k] else EofToken
  }

  /** The tokens still to come after `k` more tokens have been read. */
  function Drop(stream: seq<Token>, k: nat): seq<Token> {
    if k <= |stream| then stream[k..] else []
  }

  lemma DropStep(stream: seq<Token>, k: nat)
    ensures At(Drop(stream, k), 0) == At(stream, k)
    ensures Drop(Drop(stream, k), 1) == Drop(stream, k + 1)
  {
  }

  /**
   * The tokenizer over an input already split into tokens (end-of-line tokens included),
   * with the read position and the end-of-line mode flag.
   */
  class QuakeMapTokenizer {
    const tokens: seq<Token>
    var pos: nat
    var skipEol: bool
    /** The tokens `NextToken` will return, in order, under the current mode. */
    ghost var pending: seq<Token>

    ghost predicate Valid()
      reads this
    {
      pos <= |tokens| && pending == Emitted(tokens[pos..], skipEol)
    }

    constructor (tokens: seq<Token>, skipEol: bool)
      ensures Valid() && this.tokens == tokens && pos == 0 && this.skipEol == skipEol
      ensures pending == Emitted(tokens, skipEol)
    {
      this.tokens := tokens;
      this.pos := 0;
      this.skipEol := skipEol;
      this.pending := Emitted(tokens, skipEol);
      new;
      assert tokens[0..] == tokens;
    }

    method SetSkipEol(skipEol: bool)
      requires Valid()
      modifies this`skipEol, this`pending
      ensures Valid() && this.skipEol == skipEol && pos == old(pos)
      ensures pending == Emitted(tokens[pos..], skipEol)
    {
      this.skipEol := skipEol;
      pending := Emitted(tokens[pos..], skipEol);
    }

    /** Returns the next token and advances past it; at the end it returns end of file and stays. */
    method NextToken() returns (t: Token)
      requires Valid()
      modifies this`pos, this`pending
      ensures Valid() && skipEol == old(skipEol)
      ensures t == At(old(pending), 0)
      ensures pending == Drop(old(pending), 1)
    {
      while pos < |tokens| && skipEol && tokens[pos].kind == Eol
        invariant pos <= |tokens|
        invariant pending == old(pending) && Emitted(tokens[pos..], skipEol) == pending
      {
        assert tokens[pos..][1..] == tokens[pos + 1..];
        pos := pos + 1;
      }
      if pos == |tokens| {
        assert tokens[pos..] == [];
        t := EofToken;
      } else {
        assert tokens[pos..][1..] == tokens[pos + 1..];
        assert pending == [tokens[pos]] + Emitted(tokens[pos + 1..], skipEol);
        t := tokens[pos];
        pos := pos + 1;
        pending := pending[1..];
      }
    }
  }

  /**
   * The index of the first token in positions from .. from + n - 1 of `stream` that is
   * not a number, or from + n when all of them are numbers.
   */
  function FirstNonNumber(stream: seq<Token>, from: nat, n: nat): (k: nat)
    ensures from <= k <= from + n
    ensures forall j :: from <= j < k ==> Accepts(Number, At(stream, j))
    ensures k < from + n ==> !Accepts(Number, At(stream, k))
    decreases n
  {
    if n == 0 then from
    else if !Accepts(Number, At(stream, from)) then from
    else FirstNonNumber(stream, from + 1, n - 1)
  }

  /** `FirstNonNumber` is the one position that has only numbers before it and is itself not one. */
  lemma FirstNonNumberAt(stream: seq<Token>, from: nat, n: nat, k: nat)
    requires from <= k <= from + n
    requires forall j :: from <= j < k ==> Accepts(Number, At(stream, j))
    requires k < from + n ==> !Accepts(Number, At(stream, k))
    ensures FirstNonNumber(stream, from, n) == k
  {
  }

  const UnexpectedToken := "Unexpected token"

  /** What reading an `s`-vector delimited by `o` and `c` from `stream` yields. */
  function FloatVector(stream: seq<Token>, o: TokenType, c: TokenType, s: nat): Result<seq<real>> {
    if !Accepts(o, At(stream, 0)) then Err(UnexpectedToken)
    else if FirstNonNumber(stream, 1, s) < 1 + s then Err(UnexpectedToken)
    else if !Accepts(c, At(stream, 1 + s)) then Err(UnexpectedToken)
    else Ok(seq(s, i requires 0 <= i < s => At(stream, 1 + i).number))
  }

  /** How many tokens that read consumes: up to and including the first one it rejects. */
  function FloatVectorLength(stream: seq<Token>, o: TokenType, c: TokenType, s: nat): nat {
    if !Accepts(o, At(stream, 0)) then 1
    else if FirstNonNumber(stream, 1, s) < 1 + s then FirstNonNumber(stream, 1, s) + 1
    else s + 2
  }

  /**
   * The read succeeds iff the first token is an opener, the next `s` are numbers and the one
   * after them a closer; then component i is the number of the (i + 1)-th token.
   */
  lemma FloatVectorCharacterized(stream: seq<Token>, o: TokenType, c: TokenType, s: nat)
    ensures FloatVector(stream, o, c, s).Ok? <==>
      && Accepts(o, At(stream, 0))
      && (forall i :: 1 <= i <= s ==> Accepts(Number, At(stream, i)))
      && Accepts(c, At(stream, s + 1))
    ensures FloatVector(stream, o, c, s).Ok? ==>
      var v := FloatVector(stream, o, c, s).value;
      |v| == s && forall i :: 0 <= i < s ==> v[i] == At(stream, i + 1).number
  {
    var k := FirstNonNumber(stream, 1, s);
    if k < 1 + s {
      assert !Accepts(Number, At(stream, k));
    }
  }

  /** A successful read consumes exactly the opener, the `s` numbers and the closer. */
  lemma FloatVectorConsumesDelimitedNumbers(stream: seq<Token>, o: TokenType, c: TokenType, s: nat)
    requires FloatVector(stream, o, c, s).Ok?
    ensures FloatVectorLength(stream, o, c, s) == s + 2
  {
  }

  /** The number of components a vector has when the parser does not say otherwise. */
  const DefaultArity: nat := 3

  class StandardMapParser {
    const tokenizer: QuakeMapTokenizer

    constructor (tokenizer: QuakeMapTokenizer)
      ensures this.tokenizer == tokenizer
    {
      this.tokenizer := tokenizer;
    }

    /**
     * Reads an opening token of kind `o`, then `s` number tokens into a fresh vector,
     * then a closing token of kind `c`; the first token of the wrong kind raises.
     */
    method ParseFloatVector(o: TokenType, c: TokenType, s: nat) returns (r: Result<seq<real>>)
      requires tokenizer.Valid()
      modifies tokenizer`pos, tokenizer`pending
      ensures tokenizer.Valid()
      ensures r == FloatVector(old(tokenizer.pending), o, c, s)
      ensures tokenizer.pending == Drop(old(tokenizer.pending), FloatVectorLength(old(tokenizer.pending), o, c, s))
    {
      ghost var stream := tokenizer.pending;
      DropStep(stream, 0);
      assert Drop(stream, 0) == stream;
      var t := tokenizer.NextToken();
      if !Accepts(o, t) {
        assert FloatVectorLength(stream, o, c, s) == 1;
        return Err(UnexpectedToken);
      }
      var vec := new real[s];
      var ok, failedAt := ReadComponents(vec, stream);
      FirstNonNumberAt(stream, 1, s, failedAt);
      if !ok {
        return Err(UnexpectedToken);
      }
      r := ExpectClosing(c, vec, stream);
    }

    /** The end of `ParseFloatVector`: the closing token after the `vec.Length` numbers read into `vec`. */
    method ExpectClosing(c: TokenType, vec: array<real>, ghost stream: seq<Token>) returns (r: Result<seq<real>>)
      requires tokenizer.Valid()
      requires tokenizer.pending == Drop(stream, 1 + vec.Length)
      requires forall j :: 0 <= j < vec.Length ==> vec[j] == At(stream, 1 + j).number
      modifies tokenizer`pos, tokenizer`pending
      ensures tokenizer.Valid()
      ensures tokenizer.pending == Drop(stream, 2 + vec.Length)
      ensures r == if Accepts(c, At(stream, 1 + vec.Length))
                   then Ok(seq(vec.Length, i requires 0 <= i < vec.Length => At(stream, 1 + i).number))
                   else Err(UnexpectedToken)
    {
      DropStep(stream, 1 + vec.Length);
      var t := tokenizer.NextToken();
      if !Accepts(c, t) {
        return Err(UnexpectedToken);
      }
      ghost var v := seq(vec.Length, i requires 0 <= i < vec.Length => At(stream, 1 + i).number);
      assert vec[..] == v;
      r := Ok(vec[..]);
    }

    /**
     * The loop of `ParseFloatVector`: fills `vec` from the next `vec.Length` number tokens,
     * stopping after the first token that is not a number (at position `failedAt` of `stream`).
     */
    method ReadComponents(vec: array<real>, ghost stream: seq<Token>) returns (ok: bool, ghost failedAt: nat)
      requires tokenizer.Valid()
      requires tokenizer.pending == Drop(stream, 1)
      modifies tokenizer`pos, tokenizer`pending, vec
      ensures tokenizer.Valid()
      ensures 1 <= failedAt <= 1 + vec.Length
      ensures forall j :: 1 <= j < failedAt ==> Accepts(Number, At(stream, j))
      ensures ok <==> failedAt == 1 + vec.Length
      ensures !ok ==> !Accepts(Number, At(stream, failedAt))
      ensures tokenizer.pending == Drop(stream, if ok then failedAt else failedAt + 1)
      ensures ok ==> forall j :: 0 <= j < vec.Length ==> vec[j] == At(stream, 1 + j).number
    {
      var i := 0;
      while i < vec.Length
        invariant 0 <= i <= vec.Length
        invariant tokenizer.Valid()
        invariant tokenizer.pending == Drop(stream, 1 + i)
        invariant forall j :: 1 <= j <= i ==> Accepts(Number, At(stream, j))
        invariant forall j :: 0 <= j < i ==> vec[j] == At(stream, 1 + j).number
      {
        DropStep(stream, 1 + i);
        var t := tokenizer.NextToken();
        if !Accepts(Number, t) {
          return false, 1 + i;
        }
        vec[i] := t.number;
        i := i + 1;
      }
      return true, 1 + vec.Length;
    }

    /** `ParseFloatVector` at the default arity of 3. */
    method ParseDefaultFloatVector(o: TokenType, c: TokenType) returns (r: Result<seq<real>>)
      requires tokenizer.Valid()
      modifies tokenizer`pos, tokenizer`pending
      ensures tokenizer.Valid()
      ensures r == FloatVector(old(tokenizer.pending), o, c, DefaultArity)
      ensures r.Ok? ==> |r.value| == 3
    {
      r := ParseFloatVector(o, c, DefaultArity);
      FloatVectorCharacterized(old(tokenizer.pending), o, c, DefaultArity);
    }
  }
}
