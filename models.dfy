/** The catalog's data shapes. */
module Models {
  import opened Common

  /** A catalog record as the cache stores it (CatalogApi.Models.Product). */
  datatype Product = Product(id: string, title: Option<string>, description: Option<string>)

  /** A catalog record as the vector index reads it (the root-namespace Product);
      its embedding is carried along but never read by the index rebuild. */
  datatype VectorProduct = VectorProduct(id: string, title: Option<string>, description: Option<string>, embedding: seq<Float32>)

  /** One retrieved hit handed to the answer composer. */
  datatype ProductSearchResult = ProductSearchResult(title: string, description: string, vectorScore: Float32)
}
