/** What an adapter reports about itself (plugin.Metadata). */
module Plugin {

  datatype Metadata = Metadata(
    Name: string,
    Slug: string,
    Manifest: seq<string>,
    ModulePath: seq<string>)
}
