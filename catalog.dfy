/**
 * The record types of the catalog (repertoire/models.py). Every `id` is `None`
 * until the store has given the entity a row; the creation and update
 * timestamps are not modelled.
 */
module Catalog {
  import opened Wrappers

  datatype RecordingType = Studio | Live | Broadcast | OtherType

  datatype Composer = Composer(
    id: Option<int>,
    name: string,
    birthYear: Option<int>,
    deathYear: Option<int>,
    nationality: Option<string>,
    biography: Option<string>,
    musicbrainzId: Option<string>)

  datatype Work = Work(
    id: Option<int>,
    composerId: Option<int>,
    title: string,
    catalogNumber: Option<string>,
    key: Option<string>,
    opus: Option<string>,
    durationSeconds: Option<int>,
    notes: Option<string>,
    musicbrainzId: Option<string>)

  /** A soloist, conductor, ensemble and so on; `performerType` is free text. */
  datatype Performer = Performer(
    id: Option<int>,
    name: string,
    performerType: string,
    instrument: Option<string>,
    biography: Option<string>)

  datatype Label = Label(id: Option<int>, name: string, country: Option<string>)

  /**
   * One release (an album). `performers`, `work` and `recordLabel` (Python `label`) are the record's
   * denormalised relationships; `works` is the album's track list, which the
   * store reads and fills although the Python record type declares no such field.
   */
  datatype Recording = Recording(
    id: Option<int>,
    workId: Option<int>,
    title: string,
    recordingType: RecordingType,
    labelId: Option<int>,
    catalogNumber: Option<string>,
    ean: Option<string>,
    releaseYear: Option<int>,
    recordingYear: Option<int>,
    durationSeconds: Option<int>,
    coverUrl: Option<string>,
    discogsId: Option<int>,
    discogsUrl: Option<string>,
    notes: Option<string>,
    inLibrary: bool,
    performers: seq<Performer>,
    work: Option<Work>,
    recordLabel: Option<Label>,
    works: seq<Work>)

  /** Provenance of one fetched page of the scraped site. */
  datatype ScrapePage = ScrapePage(
    id: Option<int>,
    url: string,
    rubric: string,
    letter: Option<string>,
    pageNumber: Option<int>,
    rawHtml: Option<string>,
    notes: Option<string>)
}
