/** The files of the step on a mount, by name (`cmd/kbuild-step/main.go`). */
module Names {
  import opened Text

  const STAMP: string := ".kbf-stamp"
  const SEED_STAMP: string := ".kbf-stamp.seed"

  /** What the pack walk leaves out, wherever it is: the cached source and seeds being packed. */
  predicate LeftOut(name: string) {
    HasPrefix(name, ".kbf-seed-") || HasPrefix(name, ".kbf-src")
  }
}
