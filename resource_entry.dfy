/** The `ResourceEntry` record of `src/types/resources.ts`. */
module ResourceEntries {
  import opened Wrappers

  datatype ResourceEntry = ResourceEntry(
    id: string,
    title: string,
    category: string,
    imageUrl: Option<string>,
    snippet: string,
    content: string,
    keywords: Option<seq<string>>)
}
