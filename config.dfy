/** The configuration constants the core reads (chat/config.py, config.py). */
module Config {
  const RequestTimeout: nat := 10
  const MaxPagesCrawl: int := 5
  const ChunkSize: nat := 1000
  const ChunkOverlap: nat := 150
  const RetrievalTopK: nat := 4
  const PineconeIndexName: string := "website-content"
  const DefaultCollectionName: string := "website_content"
}
