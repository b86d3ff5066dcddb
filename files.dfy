/** The file system as the server sees it through `fs.readFile`. */
module Files {

  /** The outcome of reading a path: its contents, `ENOENT`, or any other error. */
  datatype FileRead = Found(content: string) | NoEntry | Unreadable

  type FileSystem = string -> FileRead
}
