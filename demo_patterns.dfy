/**
 * The four-way keyword classification that every fallback of the application
 * repeats (the real-world example, the interactive demo, the server's route
 * fallback and the browser's error fallback): object-oriented code first, then
 * conditionals, then loops, then anything else. Each copy keeps its own texts;
 * lemmas beside the copies tie each of them to this one order.
 */
module DemoPatterns {
  import opened Strings

  datatype CodePattern = ClassModel | Conditional | Loop | Plain

  /**
   * The shared priority: `class`, then `if` together with `else`, then `for`
   * or `while`. All four are case-sensitive substring tests, so `elif`,
   * `notify` or `format` count as well.
   */
  function PatternOf(code: string): CodePattern {
    if Contains(code, "class") then ClassModel
    else if Contains(code, "if") && Contains(code, "else") then Conditional
    else if Contains(code, "for") || Contains(code, "while") then Loop
    else Plain
  }
}
