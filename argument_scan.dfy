/**
 * The argument scan of `Application.Run`: from index 2 on, a `--key` token that
 * has a successor is consumed together with it as a secret reference; every
 * other token, a final lone `--key` included, is passed through to the child.
 */
module ArgumentScan {
  import opened Basics

  const KeyFlag: string := "--key"

  /** One step of the scan: a consumed `--key NAME` pair, or a pass-through token. */
  datatype Token = SecretRef(name: string) | PassArg(arg: string)

  /** The classification the scan loop makes of `rest` (the tokens after the command path). */
  function ScanArgs(rest: seq<string>): (r: seq<Token>)
    ensures |r| <= |rest| <= 2 * |r|
    decreases |rest|
  {
    if rest == [] then []
    else if rest[0] == KeyFlag && |rest| > 1 then [SecretRef(rest[1])] + ScanArgs(rest[2..])
    else [PassArg(rest[0])] + ScanArgs(rest[1..])
  }

  /** A `--key` followed by a token names that token as a secret and passes neither on. */
  lemma KeyPairStep(rest: seq<string>)
    requires |rest| > 1 && rest[0] == KeyFlag
    ensures RefNames(ScanArgs(rest)) == [rest[1]] + RefNames(ScanArgs(rest[2..]))
    ensures PassArgs(ScanArgs(rest)) == PassArgs(ScanArgs(rest[2..]))
  {
  }

  /** Any other token, a last lone `--key` included, is passed on as it is and names nothing. */
  lemma PassStep(rest: seq<string>)
    requires |rest| > 0 && !(rest[0] == KeyFlag && |rest| > 1)
    ensures RefNames(ScanArgs(rest)) == RefNames(ScanArgs(rest[1..]))
    ensures PassArgs(ScanArgs(rest)) == [rest[0]] + PassArgs(ScanArgs(rest[1..]))
  {
  }

  /** The scan loop's invariant, one `--key NAME` pair further on. */
  lemma KeyPairAdvance(args: seq<string>, i: nat, names: seq<string>, pass: seq<string>,
                       allNames: seq<string>, allPass: seq<string>)
    requires i + 1 < |args| && args[i] == KeyFlag
    requires allNames == names + RefNames(ScanArgs(args[i..]))
    requires allPass == pass + PassArgs(ScanArgs(args[i..]))
    ensures allNames == (names + [args[i + 1]]) + RefNames(ScanArgs(args[i + 2..]))
    ensures allPass == pass + PassArgs(ScanArgs(args[i + 2..]))
  {
    assert args[i..][2..] == args[i + 2..];
    KeyPairStep(args[i..]);
  }

  /** The scan loop's invariant, one pass-through token further on. */
  lemma PassAdvance(args: seq<string>, i: nat, names: seq<string>, pass: seq<string>,
                    allNames: seq<string>, allPass: seq<string>)
    requires i < |args| && !(args[i] == KeyFlag && i + 1 < |args|)
    requires allNames == names + RefNames(ScanArgs(args[i..]))
    requires allPass == pass + PassArgs(ScanArgs(args[i..]))
    ensures allNames == names + RefNames(ScanArgs(args[i + 1..]))
    ensures allPass == (pass + [args[i]]) + PassArgs(ScanArgs(args[i + 1..]))
  {
    assert args[i..][1..] == args[i + 1..];
    PassStep(args[i..]);
  }

  /** At the end of the arguments the loop has collected every name and pass-through token. */
  lemma ScanFinished(args: seq<string>, i: nat, names: seq<string>, pass: seq<string>,
                     allNames: seq<string>, allPass: seq<string>)
    requires i == |args|
    requires allNames == names + RefNames(ScanArgs(args[i..]))
    requires allPass == pass + PassArgs(ScanArgs(args[i..]))
    ensures allNames == names && allPass == pass
  {
    assert args[i..] == [];
  }

  /** The tokens a classification stands for: its inverse. */
  function Untokenize(tokens: seq<Token>): seq<string>
  {
    if tokens == [] then []
    else
      (match tokens[0]
       case SecretRef(name) => [KeyFlag, name]
       case PassArg(arg) => [arg])
      + Untokenize(tokens[1..])
  }

  /** A classification the scan can produce: a lone `--key` is passed through only as the last token. */
  ghost predicate Canonical(tokens: seq<Token>) {
    forall i :: 0 <= i < |tokens| - 1 ==> tokens[i] != PassArg(KeyFlag)
  }

  /** The secret names, in the order the scan meets them. */
  function RefNames(tokens: seq<Token>): seq<string>
  {
    if tokens == [] then []
    else (if tokens[0].SecretRef? then [tokens[0].name] else []) + RefNames(tokens[1..])
  }

  /** The pass-through arguments, in their original order. */
  function PassArgs(tokens: seq<Token>): seq<string>
  {
    if tokens == [] then []
    else (if tokens[0].PassArg? then [tokens[0].arg] else []) + PassArgs(tokens[1..])
  }

  /** The scan loses and invents nothing: its tokens read back as the arguments. */
  lemma {:induction false} ScanRoundTrip(rest: seq<string>)
    ensures Untokenize(ScanArgs(rest)) == rest
    decreases |rest|
  {
    if rest == [] {
    } else if rest[0] == KeyFlag && |rest| > 1 {
      ScanRoundTrip(rest[2..]);
      assert ScanArgs(rest)[1..] == ScanArgs(rest[2..]);
      assert rest == [KeyFlag, rest[1]] + rest[2..];
    } else {
      ScanRoundTrip(rest[1..]);
      assert ScanArgs(rest)[1..] == ScanArgs(rest[1..]);
      assert rest == [rest[0]] + rest[1..];
    }
  }

  /** The scan passes a lone `--key` through only as the very last token. */
  lemma {:induction false} ScanCanonical(rest: seq<string>)
    ensures Canonical(ScanArgs(rest))
    decreases |rest|
  {
    if rest == [] {
    } else {
      var t := ScanArgs(rest);
      var next := if rest[0] == KeyFlag && |rest| > 1 then rest[2..] else rest[1..];
      ScanCanonical(next);
      assert t[1..] == ScanArgs(next);
      forall i | 0 <= i < |t| - 1 ensures t[i] != PassArg(KeyFlag) {
        if i > 0 {
          assert t[i] == ScanArgs(next)[i - 1];
        }
      }
    }
  }

  /** Every canonical classification is what the scan makes of its own tokens. */
  lemma {:induction false} ScanInverse(tokens: seq<Token>)
    requires Canonical(tokens)
    ensures ScanArgs(Untokenize(tokens)) == tokens
    decreases |tokens|
  {
    if tokens != [] {
      var tail := tokens[1..];
      assert Canonical(tail) by {
        forall i | 0 <= i < |tail| - 1 ensures tail[i] != PassArg(KeyFlag) {
          assert tail[i] == tokens[i + 1];
        }
      }
      ScanInverse(tail);
      var u := Untokenize(tokens);
      match tokens[0]
      case SecretRef(name) =>
        assert u == [KeyFlag, name] + Untokenize(tail);
        assert u[2..] == Untokenize(tail);
      case PassArg(arg) =>
        assert u == [arg] + Untokenize(tail);
        assert u[1..] == Untokenize(tail);
        if arg == KeyFlag {
          assert |tokens| == 1;
        }
    }
  }

  /** The classification does not end in a lone `--key`, so nothing after it can pair with that flag. */
  predicate EndsClosed(tokens: seq<Token>) {
    tokens == [] || tokens[|tokens| - 1] != PassArg(KeyFlag)
  }

  /** The scan of two token lists is the scan of each, unless the first ends in a lone `--key`. */
  lemma {:induction false} ScanAppend(rest: seq<string>, more: seq<string>)
    requires EndsClosed(ScanArgs(rest))
    ensures ScanArgs(rest + more) == ScanArgs(rest) + ScanArgs(more)
    decreases |rest|
  {
    if rest == [] {
      assert rest + more == more;
    } else {
      var paired := rest[0] == KeyFlag && |rest| > 1;
      if !paired && |rest| == 1 {
        assert ScanArgs(rest) == [PassArg(rest[0])];
        assert rest[0] != KeyFlag;
      }
      var step := if paired then 2 else 1;
      var head := if paired then SecretRef(rest[1]) else PassArg(rest[0]);
      var tail := rest[step..];
      assert ScanArgs(rest) == [head] + ScanArgs(tail);
      assert EndsClosed(ScanArgs(tail));
      ScanAppend(tail, more);
      DropAppend(rest, more, step);
      assert ScanArgs(rest + more) == [head] + ScanArgs(tail + more);
      AppendAssociates([head], ScanArgs(tail), ScanArgs(more));
    }
  }

  lemma {:induction false} RefNamesAppend(a: seq<Token>, b: seq<Token>)
    ensures RefNames(a + b) == RefNames(a) + RefNames(b)
    decreases |a|
  {
    if a == [] {
      assert a + b == b;
    } else {
      assert (a + b)[1..] == a[1..] + b;
      RefNamesAppend(a[1..], b);
    }
  }

  lemma {:induction false} PassArgsAppend(a: seq<Token>, b: seq<Token>)
    ensures PassArgs(a + b) == PassArgs(a) + PassArgs(b)
    decreases |a|
  {
    if a == [] {
      assert a + b == b;
    } else {
      assert (a + b)[1..] == a[1..] + b;
      PassArgsAppend(a[1..], b);
    }
  }

  /**
   * A `--key` with no successor names no secret: appended after a closed scan it
   * reaches the child as a literal argument, and the secret names are unchanged.
   */
  lemma TrailingKeyPassesThrough(rest: seq<string>)
    requires EndsClosed(ScanArgs(rest))
    ensures RefNames(ScanArgs(rest + [KeyFlag])) == RefNames(ScanArgs(rest))
    ensures PassArgs(ScanArgs(rest + [KeyFlag])) == PassArgs(ScanArgs(rest)) + [KeyFlag]
  {
    ScanAppend(rest, [KeyFlag]);
    assert ScanArgs([KeyFlag]) == [PassArg(KeyFlag)];
    RefNamesAppend(ScanArgs(rest), [PassArg(KeyFlag)]);
    PassArgsAppend(ScanArgs(rest), [PassArg(KeyFlag)]);
  }

  /** Each secret reference consumes two tokens and each pass-through token one. */
  lemma {:induction false} ScanConsumesAll(rest: seq<string>)
    ensures 2 * |RefNames(ScanArgs(rest))| + |PassArgs(ScanArgs(rest))| == |rest|
    decreases |rest|
  {
    if rest == [] {
    } else if rest[0] == KeyFlag && |rest| > 1 {
      ScanConsumesAll(rest[2..]);
    } else {
      ScanConsumesAll(rest[1..]);
    }
  }
}
