/** Classpath prompt files, read through the resource loader under
    `classpath:prompts/`. A file that is missing or cannot be read yields the
    empty text, which is how every loader in the registries recovers from an
    `IOException`. */
module Resources {
  /** The bundled prompt files, by reference relative to `prompts/`. */
  type Files = map<string, string>

  function LoadOrEmpty(files: Files, ref: string): (r: string)
    ensures ref in files ==> r == files[ref]
    ensures ref !in files ==> r == ""
  {
    if ref in files then files[ref] else ""
  }
}
