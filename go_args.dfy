/** The command-line checks at the top of `main` in xmlParse.go. The argument
    list includes the program name, so `args[1]` is the first argument. */
module GoArgs {

  /** What the checks decide: print the usage text and end with a status, or
      parse the file at `args[fileArg]`, showing comments or not. */
  datatype Invocation =
    | Usage(exitCode: int)
    | Parse(fileArg: nat, showComments: bool)

  predicate IsHelp(a: string) {
    a == "-h" || a == "--help"
  }

  predicate IsIgnoreComments(a: string) {
    a == "-i" || a == "--ignore_comments"
  }

  /** `strings.HasPrefix(a, "-")`. */
  predicate IsOption(a: string) {
    |a| > 0 && a[0] == '-'
  }

  /** The checks run in order, each ending the process when it fires: wrong
      count, help, `-i` without a file, unknown option. Otherwise the file is
      the first argument, or the second one after `-i`, which hides comments. */
  function Classify(args: seq<string>): (r: Invocation)
    ensures r.Usage? ==> r.exitCode in {0, 1, 2, 3}
    ensures r == Usage(1) <==> !(2 <= |args| <= 3)
    ensures r == Usage(0) <==> 2 <= |args| <= 3 && IsHelp(args[1])
    ensures r == Usage(2) <==> |args| == 2 && IsIgnoreComments(args[1])
    ensures r == Usage(3) <==>
      2 <= |args| <= 3 && IsOption(args[1]) && !IsHelp(args[1]) && !IsIgnoreComments(args[1])
    ensures r.Parse? ==> r.fileArg < |args| && r.fileArg == (if r.showComments then 1 else 2)
    ensures r.Parse? ==> (r.showComments <==> !IsIgnoreComments(args[1]))
    ensures r.Parse? && r.showComments ==> !IsOption(args[1])
    ensures r.Parse? && !r.showComments ==> |args| == 3 && IsIgnoreComments(args[1])
  {
    if |args| < 2 || |args| > 3 then Usage(1)
    else if IsHelp(args[1]) then Usage(0)
    else if |args| != 3 && IsIgnoreComments(args[1]) then Usage(2)
    else if IsOption(args[1]) && !IsHelp(args[1]) && !IsIgnoreComments(args[1]) then Usage(3)
    else if IsIgnoreComments(args[1]) then Parse(2, false)
    else Parse(1, true)
  }
}
